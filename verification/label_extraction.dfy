/**
 * Closed-set answer extraction. Text arrives normalised: a response is a list of lines and a line
 * a list of words without spaces, so joining words with single spaces gives the normalised text.
 */
module LabelExtraction {
  import opened Domain

  type Line = seq<string>

  predicate IsStripped(c: char) {
    c in " .,:;!?\"'`*_#()[]{}<>"
  }

  function StripLeft(s: string): string {
    if s != "" && IsStripped(s[0]) then StripLeft(s[1..]) else s
  }

  function StripRight(s: string): string {
    if s != "" && IsStripped(s[|s| - 1]) then StripRight(s[..|s| - 1]) else s
  }

  function Strip(s: string): string { StripRight(StripLeft(s)) }

  function Join(words: Line): string {
    if words == [] then "" else if |words| == 1 then words[0] else words[0] + " " + Join(words[1..])
  }

  /** Labels named by a line: its words, stripped, that are labels. */
  function Mentioned(line: Line, labels: set<string>): set<string> {
    (set word <- line :: Strip(word)) * labels
  }

  /** What a line that mentions labels answers; a negated line answers only if it is the bare label. */
  function LineAnswer(line: Line, labels: set<string>, negated: Line -> bool): Option<string>
  {
    var found := Mentioned(line, labels);
    if |found| == 1 then
      var word := SoleElement(found);
      if Strip(Join(line)) != word && negated(line) then None else Some(word)
    else None
  }

  function SoleElement(s: set<string>): (x: string)
    requires |s| == 1
    ensures s == {x}
  {
    SingletonHasOne(s);
    var x :| x in s;
    x
  }

  lemma SingletonHasOne(s: set<string>)
    requires |s| == 1
    ensures exists x :: x in s
    ensures forall x, y | x in s && y in s :: x == y
  {
    var x :| x in s;
    assert |s - {x}| == 0;
    assert s == {x};
  }

  /** The scan from the last line to the first. */
  method ExtractLabel(lines: seq<Line>, labels: set<string>, negated: Line -> bool) returns (answer: Option<string>)
    ensures answer == Extracted(lines, labels, negated)
  {
    var remaining := lines;
    while remaining != []
      invariant Extracted(lines, labels, negated) == Extracted(remaining, labels, negated)
      decreases |remaining|
    {
      var line := remaining[|remaining| - 1];
      if line != [] {
        var found := Mentioned(line, labels);
        if |found| == 1 {
          var word := SoleElement(found);
          if Strip(Join(line)) != word && negated(line) {
            return None;
          }
          return Some(word);
        }
        if found != {} {
          return None;
        }
      } else {
        BlankMentionsNothing(labels);
      }
      remaining := remaining[..|remaining| - 1];
    }
    return None;
  }

  lemma BlankMentionsNothing(labels: set<string>)
    ensures Mentioned([], labels) == {}
  {
  }

  function Extracted(lines: seq<Line>, labels: set<string>, negated: Line -> bool): Option<string> {
    if lines == [] then None
    else
      var last := lines[|lines| - 1];
      if Mentioned(last, labels) != {} then LineAnswer(last, labels, negated)
      else Extracted(lines[..|lines| - 1], labels, negated)
  }

  lemma SilentLineDoesNotCount(lines: seq<Line>, last: Line, labels: set<string>, negated: Line -> bool)
    requires Mentioned(last, labels) == {}
    ensures Extracted(lines + [last], labels, negated) == Extracted(lines, labels, negated)
  {
    var all := lines + [last];
    assert all[|all| - 1] == last && all[..|all| - 1] == lines;
  }

  /** Lines at the end that mention no label do not count. */
  lemma {:induction false} SilentLinesDoNotCount(
    lines: seq<Line>, after: seq<Line>, labels: set<string>, negated: Line -> bool)
    requires forall i | 0 <= i < |after| :: Mentioned(after[i], labels) == {}
    ensures Extracted(lines + after, labels, negated) == Extracted(lines, labels, negated)
    decreases |after|
  {
    if after == [] {
      assert lines + after == lines;
    } else {
      var fewer, last := after[..|after| - 1], after[|after| - 1];
      assert lines + after == lines + fewer + [last];
      SilentLineDoesNotCount(lines + fewer, last, labels, negated);
      SilentLinesDoNotCount(lines, fewer, labels, negated);
    }
  }

  /** The answer is that of the last line that mentions any label; nothing before or after it matters. */
  lemma LastMentionDecides(
    before: seq<Line>, line: Line, after: seq<Line>, labels: set<string>, negated: Line -> bool)
    requires Mentioned(line, labels) != {}
    requires forall i | 0 <= i < |after| :: Mentioned(after[i], labels) == {}
    ensures Extracted(before + [line] + after, labels, negated) == LineAnswer(line, labels, negated)
  {
    SilentLinesDoNotCount(before + [line], after, labels, negated);
    assert (before + [line])[|before|] == line;
  }

  lemma {:induction false} NoMentionNoAnswer(lines: seq<Line>, labels: set<string>, negated: Line -> bool)
    requires forall i | 0 <= i < |lines| :: Mentioned(lines[i], labels) == {}
    ensures Extracted(lines, labels, negated) == None
  {
    if lines != [] {
      NoMentionNoAnswer(lines[..|lines| - 1], labels, negated);
    }
  }

  predicate IsSilent(line: Line, labels: set<string>) { Mentioned(line, labels) == {} }

  /** The line mentions this label alone, and is bare or not negated. */
  predicate Gives(line: Line, labels: set<string>, negated: Line -> bool, word: string) {
    Mentioned(line, labels) == {word} && (Strip(Join(line)) == word || !negated(line))
  }

  lemma SilentGivesNothing(line: Line, labels: set<string>, negated: Line -> bool, word: string)
    requires IsSilent(line, labels)
    ensures !Gives(line, labels, negated, word)
  {
    assert word in {word};
  }

  /** Line k answers this label: it alone is mentioned, bare or without a negation, and nothing after it is. */
  ghost predicate Answers(lines: seq<Line>, k: nat, labels: set<string>, negated: Line -> bool, word: string) {
    && k < |lines|
    && Gives(lines[k], labels, negated, word)
    && forall i | k < i < |lines| :: IsSilent(lines[i], labels)
  }

  ghost predicate SomeLineAnswers(lines: seq<Line>, labels: set<string>, negated: Line -> bool, word: string) {
    exists k: nat :: Answers(lines, k, labels, negated, word)
  }

  /** A label is extracted exactly when some line answers it. */
  lemma {:induction false} ExtractedExactly(
    lines: seq<Line>, labels: set<string>, negated: Line -> bool, word: string)
    ensures Extracted(lines, labels, negated) == Some(word) <==> SomeLineAnswers(lines, labels, negated, word)
    decreases |lines|
  {
    if lines != [] {
      if IsSilent(lines[|lines| - 1], labels) {
        var front, last := lines[..|lines| - 1], lines[|lines| - 1];
        assert lines == front + [last];
        ExtractedExactly(front, labels, negated, word);
        SilentLastLine(front, last, labels, negated, word);
      } else {
        OnlyTheLastAnswers(lines, labels, negated, word);
      }
    }
  }

  lemma AnswersBeforeSilence(
    front: seq<Line>, last: Line, k: nat, labels: set<string>, negated: Line -> bool, word: string)
    requires IsSilent(last, labels)
    ensures Answers(front + [last], k, labels, negated, word) <==> Answers(front, k, labels, negated, word)
  {
    var lines := front + [last];
    SilentGivesNothing(last, labels, negated, word);
    assert lines[|front|] == last;
    assert forall i | 0 <= i < |front| :: lines[i] == front[i];
  }

  lemma SilentLastLine(front: seq<Line>, last: Line, labels: set<string>, negated: Line -> bool, word: string)
    requires IsSilent(last, labels)
    ensures SomeLineAnswers(front + [last], labels, negated, word) <==> SomeLineAnswers(front, labels, negated, word)
  {
    forall k: nat
      ensures Answers(front + [last], k, labels, negated, word) <==> Answers(front, k, labels, negated, word)
    {
      AnswersBeforeSilence(front, last, k, labels, negated, word);
    }
  }

  lemma OnlyTheLastAnswers(lines: seq<Line>, labels: set<string>, negated: Line -> bool, word: string)
    requires lines != [] && !IsSilent(lines[|lines| - 1], labels)
    ensures Extracted(lines, labels, negated) == Some(word) <==> Answers(lines, |lines| - 1, labels, negated, word)
    ensures forall k: nat :: Answers(lines, k, labels, negated, word) ==> k == |lines| - 1
  {
    var found := Mentioned(lines[|lines| - 1], labels);
    if |found| == 1 {
      SingletonHasOne(found);
      assert found == {word} <==> word in found;
    } else {
      assert found == {word} ==> |found| == 1;
    }
  }

  // ----- stripping -----

  predicate AllStripped(s: string) {
    forall i | 0 <= i < |s| :: IsStripped(s[i])
  }

  lemma {:induction false} StripLeftOf(a: string, b: string)
    ensures AllStripped(a) ==> StripLeft(a + b) == StripLeft(b)
    ensures !AllStripped(a) ==> StripLeft(a + b) == StripLeft(a) + b && !AllStripped(StripLeft(a))
  {
    if a == "" {
      assert a + b == b;
    } else {
      AllStrippedCons(a);
      assert (a + b)[1..] == a[1..] + b;
      if IsStripped(a[0]) {
        StripLeftOf(a[1..], b);
      }
    }
  }

  lemma AllStrippedCons(s: string)
    requires s != ""
    ensures AllStripped(s) <==> IsStripped(s[0]) && AllStripped(s[1..])
  {
    assert s == [s[0]] + s[1..];
  }

  lemma {:induction false} StripRightOf(a: string, b: string)
    ensures AllStripped(b) ==> StripRight(a + b) == StripRight(a)
    ensures !AllStripped(b) ==> StripRight(a + b) == a + StripRight(b)
    decreases |b|
  {
    if b == "" {
      assert a + b == a;
    } else {
      var last, front := b[|b| - 1], b[..|b| - 1];
      assert b == front + [last];
      assert (a + b)[|a + b| - 1] == last;
      if IsStripped(last) {
        assert (a + b)[..|a + b| - 1] == a + front;
        StripRightOf(a, front);
        assert AllStripped(b) <==> AllStripped(front);
      }
    }
  }

  lemma StripEmptyExactly(s: string)
    ensures Strip(s) == "" <==> AllStripped(s)
  {
    StripLeftOf(s, "");
    StripRightOf("", StripLeft(s));
    assert s + "" == s && "" + StripLeft(s) == StripLeft(s);
    if !AllStripped(s) {
      StripRightKeeps(StripLeft(s));
    } else {
      assert StripLeft("") == "";
    }
  }

  lemma {:induction false} StripRightKeeps(s: string)
    requires !AllStripped(s)
    ensures StripRight(s) != ""
    decreases |s|
  {
    assert s == s[..|s| - 1] + [s[|s| - 1]];
    if IsStripped(s[|s| - 1]) {
      StripRightKeeps(s[..|s| - 1]);
    }
  }

  /** Stripping a word followed by a space and more text, by which of the two parts has content. */
  lemma StripPair(word: string, rest: string)
    ensures AllStripped(word) ==> Strip(word + " " + rest) == Strip(rest)
    ensures AllStripped(rest) ==> Strip(word + " " + rest) == Strip(word)
    ensures !AllStripped(word) && !AllStripped(rest) ==> ' ' in Strip(word + " " + rest)
  {
    var gap := " " + rest;
    assert word + " " + rest == word + gap;
    assert gap[0] == ' ' && gap[1..] == rest;
    StripLeftOf(word, gap);
    if AllStripped(word) {
      assert StripLeft(gap) == StripLeft(rest);
      if AllStripped(rest) {
        StripEmptyExactly(rest);
        StripEmptyExactly(word);
      }
    } else {
      StripRightOf(StripLeft(word), gap);
      assert AllStripped(gap) <==> AllStripped(rest);
      if !AllStripped(rest) {
        StripRightOf(" ", rest);
        assert StripRight(gap) == " " + StripRight(rest);
        assert Strip(word + gap)[|StripLeft(word)|] == ' ';
      }
    }
  }

  // ----- the content of a line -----

  /** The words of a line that have content, stripped. */
  function Core(words: Line): seq<string> {
    if words == [] then []
    else (if AllStripped(words[0]) then [] else [Strip(words[0])]) + Core(words[1..])
  }

  lemma {:induction false} CoreConcat(a: Line, b: Line)
    ensures Core(a + b) == Core(a) + Core(b)
  {
    if a == [] {
      assert a + b == b;
    } else {
      assert (a + b)[1..] == a[1..] + b;
      CoreConcat(a[1..], b);
      Assoc(if AllStripped(a[0]) then [] else [Strip(a[0])], Core(a[1..]), Core(b));
    }
  }

  /** A line without content joins to text without content, and so does the converse. */
  lemma {:induction false} CoreEmptyExactly(words: Line)
    ensures Core(words) == [] <==> AllStripped(Join(words))
  {
    if |words| > 1 {
      CoreEmptyExactly(words[1..]);
      var joined := words[0] + " " + Join(words[1..]);
      assert AllStripped(joined) <==> AllStripped(words[0]) && AllStripped(Join(words[1..])) by {
        assert joined[|words[0]|] == ' ';
        assert forall i | 0 <= i < |words[0]| :: joined[i] == words[0][i];
        assert forall i | 0 <= i < |Join(words[1..])| :: joined[|words[0]| + 1 + i] == Join(words[1..])[i];
      }
    } else if |words| == 1 {
      assert words[1..] == [];
    }
  }

  /** The joined text strips to a given space-free word exactly when that word is the line's only content. */
  lemma {:induction false} SoleContentExactly(words: Line, term: string)
    requires term != "" && ' ' !in term
    ensures Strip(Join(words)) == term <==> Core(words) == [term]
  {
    if words == [] {
      assert Strip("") == "";
    } else {
      StripEmptyExactly(words[0]);
      CoreEmptyExactly(words[1..]);
      if |words| == 1 {
        assert words[1..] == [] && Core(words[1..]) == [];
      } else {
        SoleContentExactly(words[1..], term);
        StripPair(words[0], Join(words[1..]));
      }
    }
  }

  lemma {:induction false} MentionedIsCore(line: Line, labels: set<string>)
    requires "" !in labels
    ensures Mentioned(line, labels) == (set word <- Core(line)) * labels
  {
    if line != [] {
      MentionedIsCore(line[1..], labels);
      StripEmptyExactly(line[0]);
      assert line == [line[0]] + line[1..];
      assert Mentioned(line, labels) == Mentioned(line[1..], labels) + ({Strip(line[0])} * labels);
      assert Core(line) == (if AllStripped(line[0]) then [] else [Strip(line[0])]) + Core(line[1..]);
    }
  }

  // ----- the bare path -----

  function AllWords(lines: seq<Line>): Line {
    if lines == [] then [] else AllWords(lines[..|lines| - 1]) + lines[|lines| - 1]
  }

  /** The whole response, joined and stripped. */
  function Bare(lines: seq<Line>): string { Strip(Join(AllWords(lines))) }

  datatype Method = BareAnswer | Extraction | NoLabelFound

  datatype Classification = Classification(predicted: string, how: Method, correct: bool)

  function Classify(lines: seq<Line>, truth: string, labels: set<string>, negated: Line -> bool): Classification {
    var bare := Bare(lines);
    if labels != {} && bare !in labels then
      match Extracted(lines, labels, negated)
      case Some(answer) => Classification(answer, Extraction, answer == truth)
      case None => Classification(bare, NoLabelFound, bare == truth)
    else Classification(bare, BareAnswer, bare == truth)
  }

  predicate IsOneWord(term: string) { term != "" && ' ' !in term }

  lemma SoleElementOfConcat<T>(a: seq<T>, b: seq<T>, x: T)
    requires a + b == [x]
    ensures (a == [x] && b == []) || (a == [] && b == [x])
  {
    assert |a| + |b| == 1;
    if a == [] {
      assert a + b == b;
    } else {
      assert (a + b)[0] == a[0];
    }
  }

  lemma SoleContentAnswers(line: Line, term: string, labels: set<string>, negated: Line -> bool)
    requires Core(line) == [term] && term in labels && IsOneWord(term) && "" !in labels
    ensures Mentioned(line, labels) == {term} && LineAnswer(line, labels, negated) == Some(term)
  {
    MentionedIsCore(line, labels);
    SoleContentExactly(line, term);
  }

  lemma {:induction false} SoleContentIsExtracted(
    lines: seq<Line>, term: string, labels: set<string>, negated: Line -> bool)
    requires Core(AllWords(lines)) == [term] && term in labels
    requires forall other <- labels :: IsOneWord(other)
    ensures Extracted(lines, labels, negated) == Some(term)
  {
    if lines != [] {
      var front, last := lines[..|lines| - 1], lines[|lines| - 1];
      CoreConcat(AllWords(front), last);
      MentionedIsCore(last, labels);
      SoleElementOfConcat(Core(AllWords(front)), Core(last), term);
      if Core(last) == [] {
        SoleContentIsExtracted(front, term, labels, negated);
      } else {
        SoleContentAnswers(last, term, labels, negated);
      }
    }
  }

  /**
   * With one-word labels, whenever the whole response is accepted as a bare label, scanning its
   * lines gives that same label: the two paths never disagree.
   */
  lemma BareAnswerIsExtracted(lines: seq<Line>, truth: string, labels: set<string>, negated: Line -> bool)
    requires forall term <- labels :: IsOneWord(term)
    requires Bare(lines) in labels
    ensures Extracted(lines, labels, negated) == Some(Bare(lines))
    ensures Classify(lines, truth, labels, negated) == Classification(Bare(lines), BareAnswer, Bare(lines) == truth)
  {
    SoleContentExactly(AllWords(lines), Bare(lines));
    SoleContentIsExtracted(lines, Bare(lines), labels, negated);
  }
}
