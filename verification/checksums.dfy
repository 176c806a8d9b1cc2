/**
 * Frozen-dataset checksums: the writer and the verifier of a checksum file. The hash is any
 * function to 64 characters without spaces or line breaks; contents are character sequences. A
 * directory maps each name, as a checksum line spells it, to what opening it there gives.
 */
module Checksums {
  import opened Domain
  import opened Ordering

  type Hash = string -> string

  /** Characters at which text is split into lines. */
  predicate IsBreak(c: char) {
    c in "\n\r\U{0B}\U{0C}\U{1C}\U{1D}\U{1E}\U{85}\U{2028}\U{2029}"
  }

  predicate OneLine(s: string) {
    forall i | 0 <= i < |s| :: !IsBreak(s[i])
  }

  ghost predicate IsDigest(hash: Hash) {
    forall content :: |hash(content)| == 64 && ' ' !in hash(content) && OneLine(hash(content))
  }

  predicate GoodName(name: string) {
    name != "" && OneLine(name)
  }

  // ----- the text of a checksum file -----

  function LineFor(hash: Hash, name: string, content: string): string {
    hash(content) + "  " + name
  }

  function TextFor(hash: Hash, names: seq<string>, files: map<string, string>): string
    requires forall i | 0 <= i < |names| :: names[i] in files
  {
    if names == [] then "" else LineFor(hash, names[0], files[names[0]]) + "\n" + TextFor(hash, names[1..], files)
  }

  function SortedNames(names: seq<string>): seq<string> { SortBy(StringLeq, names) }

  /** Files are listed by name, each as often as it was given. */
  lemma SortedNamesKeep(names: seq<string>)
    ensures InOrder(StringLeq, SortedNames(names))
    ensures multiset(SortedNames(names)) == multiset(names)
    ensures forall name :: name in SortedNames(names) <==> name in names
  {
    StringOrder();
    SortByKeeps(StringLeq, names);
    forall name ensures name in SortedNames(names) <==> name in names {
      assert name in SortedNames(names) <==> name in multiset(SortedNames(names));
      assert name in names <==> name in multiset(names);
    }
  }

  lemma SortedNamesPresent(names: seq<string>, files: map<string, string>)
    requires forall i | 0 <= i < |names| :: names[i] in files
    ensures forall i | 0 <= i < |SortedNames(names)| :: SortedNames(names)[i] in files
  {
    SortedNamesKeep(names);
    forall i | 0 <= i < |SortedNames(names)| ensures SortedNames(names)[i] in files {
      assert SortedNames(names)[i] in SortedNames(names);
      assert SortedNames(names)[i] in names;
    }
  }

  /** The checksum file does not depend on the order in which files were listed. */
  lemma ListingOrderDoesNotMatter(hash: Hash, a: seq<string>, b: seq<string>, files: map<string, string>)
    requires multiset(a) == multiset(b)
    requires forall i | 0 <= i < |a| :: a[i] in files
    ensures forall i | 0 <= i < |SortedNames(a)| :: SortedNames(a)[i] in files
    ensures SortedNames(b) == SortedNames(a)
    ensures TextFor(hash, SortedNames(b), files) == TextFor(hash, SortedNames(a), files)
  {
    StringOrder();
    SortByOfPermutation(StringLeq, a, b);
    SortedNamesPresent(a, files);
  }

  // ----- reading lines -----

  /** The position of the first line break, or the length. */
  function LineEnd(s: string): (i: nat)
    ensures i <= |s|
    ensures i < |s| ==> IsBreak(s[i])
  {
    if s == "" || IsBreak(s[0]) then 0 else 1 + LineEnd(s[1..])
  }

  function BreakWidth(s: string, i: nat): nat
    requires i < |s|
  {
    if s[i] == '\r' && i + 1 < |s| && s[i + 1] == '\n' then 2 else 1
  }

  function SplitLines(s: string): seq<string>
    decreases |s|
  {
    if s == "" then []
    else
      var i := LineEnd(s);
      if i == |s| then [s] else [s[..i]] + SplitLines(s[i + BreakWidth(s, i)..])
  }

  /** The position of the first two adjacent spaces, if any. */
  function Gap(s: string): (gap: Option<nat>)
    ensures gap.Some? ==> gap.value + 2 <= |s|
  {
    if |s| < 2 then None
    else if s[0] == ' ' && s[1] == ' ' then Some(0)
    else
      var rest := Gap(s[1..]);
      if rest.Some? then Some(rest.value + 1) else None
  }

  // ----- hashing -----

  class Hasher {
    const hash: Hash
    var fed: string

    constructor (hash: Hash)
      ensures this.hash == hash && fed == ""
    {
      this.hash, fed := hash, "";
    }

    method Update(block: string)
      modifies this
      ensures fed == old(fed) + block
    {
      fed := fed + block;
    }

    function HexDigest(): string
      reads this
    {
      hash(fed)
    }
  }

  const BLOCK := 65536

  /** Hashing block by block gives the hash of the whole content. */
  method HashFile(hash: Hash, content: string) returns (digest: string)
    ensures digest == hash(content)
  {
    var hasher := new Hasher(hash);
    var position := 0;
    while true
      invariant position <= |content| && hasher.fed == content[..position]
      decreases |content| - position
    {
      var block := content[position..if position + BLOCK <= |content| then position + BLOCK else |content|];
      if block == "" {
        break;
      }
      assert content[..position] + block == content[..position + |block|];
      hasher.Update(block);
      position := position + |block|;
    }
    assert content[..position] == content;
    digest := hasher.HexDigest();
  }

  // ----- the writer -----

  class Directory {
    var files: map<string, string>

    constructor (files: map<string, string>)
      ensures this.files == files
    {
      this.files := files;
    }

    method Write(name: string, content: string)
      modifies this
      ensures files == old(files)[name := content]
    {
      files := files[name := content];
    }
  }

  class FileList {
    var names: seq<string>

    constructor (names: seq<string>)
      ensures this.names == names
    {
      this.names := names;
    }

    method Append(name: string)
      modifies this
      ensures names == old(names) + [name]
    {
      names := names + [name];
    }
  }

  /** What a directory holds once the metadata file and then the checksum file are written. */
  function FinishedFiles(
    hash: Hash, files: map<string, string>, listed: seq<string>, metadataName: string, checksumName: string,
    metadata: string): map<string, string>
    requires forall i | 0 <= i < |listed| :: listed[i] in files
  {
    var written := files[metadataName := metadata];
    SortedNamesPresent(listed + [metadataName], written);
    written[checksumName := TextFor(hash, SortedNames(listed + [metadataName]), written)]
  }

  /** Writes the metadata file, lists it, and writes the checksum file over everything listed. */
  method Finish(
    hash: Hash, directory: Directory, metadataName: string, checksumName: string, metadata: string, listed: FileList)
    requires forall i | 0 <= i < |listed.names| :: listed.names[i] in directory.files
    modifies directory, listed
    ensures listed.names == old(listed.names) + [metadataName]
    ensures directory.files
            == FinishedFiles(hash, old(directory.files), old(listed.names), metadataName, checksumName, metadata)
  {
    directory.Write(metadataName, metadata);
    listed.Append(metadataName);
    var names := SortedNames(listed.names);
    SortedNamesPresent(listed.names, directory.files);
    var text := DigestLines(hash, directory, names);
    directory.Write(checksumName, text);
  }

  method DigestLines(hash: Hash, directory: Directory, names: seq<string>) returns (text: string)
    requires forall i | 0 <= i < |names| :: names[i] in directory.files
    ensures text == TextFor(hash, names, directory.files)
  {
    text := "";
    ghost var rest := TextFor(hash, names, directory.files);
    for i := 0 to |names|
      invariant rest == TextFor(hash, names[i..], directory.files)
      invariant text + rest == TextFor(hash, names, directory.files)
    {
      var digest := HashFile(hash, directory.files[names[i]]);
      assert names[i..][1..] == names[i + 1..];
      rest := TextFor(hash, names[i + 1..], directory.files);
      Assoc(text, digest + "  " + names[i] + "\n", rest);
      text := text + (digest + "  " + names[i] + "\n");
    }
    assert text + "" == text;
  }

  // ----- the verifier -----

  datatype IntegrityError =
    | Unreadable
    | InvalidLine(line: string)
    | MissingFile(name: string)
    | Mismatch(name: string)

  /** Checks the lines one by one, gathering what the aggregate hash is fed. */
  function CheckLines(hash: Hash, lines: seq<string>, files: map<string, string>, fed: string)
    : Result<string, IntegrityError>
  {
    if lines == [] then Ok(hash(fed))
    else
      var gap := Gap(lines[0]);
      if gap.None? || gap.value != 64 || |lines[0]| == 66 then Err(InvalidLine(lines[0]))
      else
        var name := lines[0][66..];
        if name !in files then Err(MissingFile(name))
        else if hash(files[name]) != lines[0][..64] then Err(Mismatch(name))
        else CheckLines(hash, lines[1..], files, fed + (lines[0][..64] + "  " + name + "\n"))
  }

  function Check(hash: Hash, checksumName: string, files: map<string, string>): Result<string, IntegrityError> {
    if checksumName !in files then Err(Unreadable)
    else CheckLines(hash, SplitLines(files[checksumName]), files, "")
  }

  method VerifyChecksum(hash: Hash, directory: Directory, checksumName: string)
    returns (result: Result<string, IntegrityError>)
    ensures result == Check(hash, checksumName, directory.files)
  {
    if checksumName !in directory.files {
      return Err(Unreadable);
    }
    var lines := SplitLines(directory.files[checksumName]);
    var aggregate := new Hasher(hash);
    ghost var files := directory.files;
    for i := 0 to |lines|
      invariant directory.files == files
      invariant Check(hash, checksumName, files) == CheckLines(hash, lines[i..], files, aggregate.fed)
    {
      var gap := Gap(lines[i]);
      assert lines[i..][1..] == lines[i + 1..];
      if gap.None? || gap.value != 64 || |lines[i]| == gap.value + 2 {
        return Err(InvalidLine(lines[i]));
      }
      var expected, name := lines[i][..gap.value], lines[i][gap.value + 2..];
      if name !in directory.files {
        return Err(MissingFile(name));
      }
      var actual := HashFile(hash, directory.files[name]);
      if actual != expected {
        return Err(Mismatch(name));
      }
      aggregate.Update(expected + "  " + name + "\n");
    }
    return Ok(aggregate.HexDigest());
  }

  // ----- round trip -----

  lemma {:induction false} LineEndOf(a: string, b: string)
    requires OneLine(a)
    ensures LineEnd(a + "\n" + b) == |a|
  {
    if a == "" {
      assert ("\n" + b)[0] == '\n' && a + "\n" + b == "\n" + b;
    } else {
      assert (a + "\n" + b)[1..] == a[1..] + "\n" + b;
      LineEndOf(a[1..], b);
    }
  }

  lemma {:induction false} GapAfter(a: string, b: string)
    requires ' ' !in a
    ensures Gap(a + "  " + b) == Some(|a|)
  {
    if a == "" {
      assert a + "  " + b == "  " + b;
    } else {
      assert (a + "  " + b)[1..] == a[1..] + "  " + b;
      assert a[0] in a;
      GapAfter(a[1..], b);
    }
  }

  lemma FirstLine(line: string, rest: string)
    requires OneLine(line)
    ensures SplitLines(line + "\n" + rest) == [line] + SplitLines(rest)
  {
    LineEndOf(line, rest);
    var text := line + "\n" + rest;
    assert text[|line|] == '\n' && text[..|line|] == line && text[|line| + 1..] == rest;
  }

  lemma FirstWrittenLine(hash: Hash, names: seq<string>, files: map<string, string>)
    requires IsDigest(hash)
    requires forall i | 0 <= i < |names| :: names[i] in files && GoodName(names[i])
    requires names != []
    ensures SplitLines(TextFor(hash, names, files))
            == [LineFor(hash, names[0], files[names[0]])] + SplitLines(TextFor(hash, names[1..], files))
  {
    var line := LineFor(hash, names[0], files[names[0]]);
    assert OneLine(line);
    FirstLine(line, TextFor(hash, names[1..], files));
  }

  /** Splitting the written text gives back the written lines. */
  lemma {:induction false} WrittenLines(hash: Hash, names: seq<string>, files: map<string, string>)
    requires IsDigest(hash)
    requires forall i | 0 <= i < |names| :: names[i] in files && GoodName(names[i])
    ensures var lines := SplitLines(TextFor(hash, names, files));
            |lines| == |names| && forall i | 0 <= i < |names| :: lines[i] == LineFor(hash, names[i], files[names[i]])
  {
    if names != [] {
      WrittenLines(hash, names[1..], files);
      FirstWrittenLine(hash, names, files);
    }
  }

  ghost predicate Unchanged(hash: Hash, name: string, before: map<string, string>, after: map<string, string>)
    requires name in before
  {
    name in after && hash(after[name]) == hash(before[name])
  }

  lemma LineParts(hash: Hash, name: string, content: string)
    requires IsDigest(hash) && GoodName(name)
    ensures var line := LineFor(hash, name, content);
            Gap(line) == Some(64) && |line| > 66 && line[..64] == hash(content) && line[66..] == name
  {
    GapAfter(hash(content), name);
  }

  lemma {:induction false} CheckWrittenLines(
    hash: Hash, names: seq<string>, before: map<string, string>, after: map<string, string>,
    lines: seq<string>, fed: string)
    requires IsDigest(hash)
    requires forall i | 0 <= i < |names| :: names[i] in before && GoodName(names[i])
    requires |lines| == |names| && forall i | 0 <= i < |names| :: lines[i] == LineFor(hash, names[i], before[names[i]])
    ensures var result := CheckLines(hash, lines, after, fed);
            && (result.Ok? <==> forall i | 0 <= i < |names| :: Unchanged(hash, names[i], before, after))
            && (result.Ok? ==> result.value == hash(fed + TextFor(hash, names, before)))
    decreases |names|
  {
    if names == [] {
      assert fed + "" == fed;
    } else {
      LineParts(hash, names[0], before[names[0]]);
      if Unchanged(hash, names[0], before, after) {
        var piece := hash(before[names[0]]) + "  " + names[0] + "\n";
        CheckWrittenLines(hash, names[1..], before, after, lines[1..], fed + piece);
        Assoc(fed, piece, TextFor(hash, names[1..], before));
        assert forall i | 1 <= i < |names| :: names[i] == names[1..][i - 1];
      }
    }
  }

  /**
   * Verifying what the writer wrote succeeds exactly when every listed file is still there with
   * the same hash, and then returns the hash of the checksum file's own content.
   */
  lemma VerifyAcceptsExactlyUnchangedFiles(
    hash: Hash, names: seq<string>, checksumName: string, before: map<string, string>, after: map<string, string>)
    requires IsDigest(hash)
    requires forall i | 0 <= i < |names| :: names[i] in before && GoodName(names[i])
    requires checksumName in after && after[checksumName] == TextFor(hash, names, before)
    ensures var result := Check(hash, checksumName, after);
            && (result.Ok? <==> forall i | 0 <= i < |names| :: Unchanged(hash, names[i], before, after))
            && (result.Ok? ==> result.value == hash(after[checksumName]))
  {
    var text := TextFor(hash, names, before);
    WrittenLines(hash, names, before);
    CheckWrittenLines(hash, names, before, after, SplitLines(text), "");
    assert "" + text == text;
  }

  /**
   * The writer and the verifier undo each other: as long as the checksum file that `Finish` wrote is
   * there, it is accepted exactly when every listed file and the metadata file are there with the
   * hash they had when written down, and gives the checksum file's own hash. So it is accepted at
   * once, unless the checksum file itself was listed and its hash has changed by being written.
   */
  lemma FinishedFilesVerifyExactly(
    hash: Hash, files: map<string, string>, listed: seq<string>, metadataName: string, checksumName: string,
    metadata: string, later: map<string, string>)
    requires IsDigest(hash)
    requires forall i | 0 <= i < |listed| :: listed[i] in files && GoodName(listed[i])
    requires GoodName(metadataName)
    requires var finished := FinishedFiles(hash, files, listed, metadataName, checksumName, metadata);
             checksumName in later && later[checksumName] == finished[checksumName]
    ensures var all, hashed := listed + [metadataName], files[metadataName := metadata];
            var finished := FinishedFiles(hash, files, listed, metadataName, checksumName, metadata);
            && (forall name <- all :: name in hashed)
            && (Check(hash, checksumName, later).Ok? <==> forall name <- all :: Unchanged(hash, name, hashed, later))
            && (Check(hash, checksumName, later).Ok? ==>
                  Check(hash, checksumName, later).value == hash(finished[checksumName]))
            && (Check(hash, checksumName, finished).Ok?
                <==> (checksumName in all ==> hash(hashed[checksumName]) == hash(finished[checksumName])))
  {
    var all, hashed := listed + [metadataName], files[metadataName := metadata];
    var finished := FinishedFiles(hash, files, listed, metadataName, checksumName, metadata);
    SortedNamesPresent(all, hashed);
    WrittenIsAcceptedExactly(hash, all, checksumName, hashed, later);
    WrittenIsAcceptedExactly(hash, all, checksumName, hashed, finished);
  }

  lemma WrittenIsAcceptedExactly(
    hash: Hash, all: seq<string>, checksumName: string, hashed: map<string, string>, later: map<string, string>)
    requires IsDigest(hash)
    requires forall i | 0 <= i < |all| :: all[i] in hashed && GoodName(all[i])
    requires forall i | 0 <= i < |SortedNames(all)| :: SortedNames(all)[i] in hashed
    requires checksumName in later && later[checksumName] == TextFor(hash, SortedNames(all), hashed)
    ensures var result := Check(hash, checksumName, later);
            && (result.Ok? <==> forall name <- all :: Unchanged(hash, name, hashed, later))
            && (result.Ok? ==> result.value == hash(later[checksumName]))
  {
    var names := SortedNames(all);
    SortedNamesKeep(all);
    forall i | 0 <= i < |names| ensures GoodName(names[i]) {
      assert names[i] in names;
    }
    VerifyAcceptsExactlyUnchangedFiles(hash, names, checksumName, hashed, later);
    AllOrNames(hash, all, names, hashed, later);
  }

  lemma AllOrNames(
    hash: Hash, all: seq<string>, names: seq<string>, before: map<string, string>, after: map<string, string>)
    requires forall name :: name in names <==> name in all
    requires forall name <- all :: name in before
    ensures (forall i | 0 <= i < |names| :: names[i] in before && Unchanged(hash, names[i], before, after))
            <==> forall name <- all :: Unchanged(hash, name, before, after)
  {
    if forall i | 0 <= i < |names| :: names[i] in before && Unchanged(hash, names[i], before, after) {
      forall name <- all ensures Unchanged(hash, name, before, after) {
        assert name in names;
      }
    } else {
      var i :| 0 <= i < |names| && !(names[i] in before && Unchanged(hash, names[i], before, after));
      assert names[i] in names;
    }
  }
}
