/**
 * Classification metrics and field-wise extraction scores. Labels and field values arrive
 * normalised; rates are exact reals.
 */
module Evaluators {
  import opened Domain
  import opened Ordering
  import opened Grouping

  // ----- rates -----

  function Ratio(x: nat, y: nat): real {
    if y == 0 then 0.0 else x as real / y as real
  }

  function HarmonicMean(precision: real, recall: real): real {
    if precision + recall == 0.0 then 0.0 else 2.0 * precision * recall / (precision + recall)
  }

  /** The harmonic mean of t out of p and t out of e is 2t out of p + e. */
  lemma HarmonicMeanOfRatios(t: nat, p: nat, e: nat)
    requires t <= p && t <= e
    ensures HarmonicMean(Ratio(t, p), Ratio(t, e)) == Ratio(2 * t, p + e)
  {
    if t > 0 {
      var x, y, tr, pr, er := Ratio(t, p), Ratio(t, e), t as real, p as real, e as real;
      assert x * pr == tr && y * er == tr;
      MeanIdentity(x, y, tr, pr, er);
    }
  }

  lemma MeanIdentity(x: real, y: real, t: real, p: real, e: real)
    requires t > 0.0 && p > 0.0 && e > 0.0 && x > 0.0 && y > 0.0
    requires x * p == t && y * e == t
    ensures 2.0 * x * y / (x + y) == 2.0 * t / (p + e)
  {
    assert (2.0 * x * y) * (p + e) == 2.0 * y * (x * p) + 2.0 * x * (y * e);
    assert (2.0 * t) * (x + y) == 2.0 * y * t + 2.0 * x * t;
    EqualQuotients(2.0 * x * y, x + y, 2.0 * t, p + e);
  }

  lemma EqualQuotients(a: real, b: real, c: real, d: real)
    requires b > 0.0 && d > 0.0 && a * d == c * b
    ensures a / b == c / d
  {
    var q := c / d;
    assert q * d == c;
    assert a * d == q * d * b;
    assert (a - q * b) * d == 0.0;
  }

  lemma RatioIsOne(x: nat, y: nat)
    requires y > 0
    ensures Ratio(x, y) == 1.0 <==> x == y
  {
    assert Ratio(x, y) * y as real == x as real;
  }

  /** The rate times what it is out of gives the hits; out of nothing it is zero. */
  ghost predicate IsRate(rate: real, hits: nat, of: nat) {
    if of == 0 then rate == 0.0 else rate * of as real == hits as real
  }

  lemma RatioIsRate(hits: nat, of: nat)
    ensures IsRate(Ratio(hits, of), hits, of)
  {
  }

  // ----- classification metrics -----

  /** A truth and the guess made for it. */
  type Pair = (string, string)

  function TruthOf(pair: Pair): string { pair.0 }

  function GuessOf(pair: Pair): string { pair.1 }

  function Zip(truths: seq<string>, guesses: seq<string>): seq<Pair>
    requires |truths| == |guesses|
  {
    seq(|truths|, i requires 0 <= i < |truths| => (truths[i], guesses[i]))
  }

  function IsPair(truth: string, guess: string): Pair -> bool {
    (pair: Pair) => pair == (truth, guess)
  }

  predicate Agrees(pair: Pair) { pair.0 == pair.1 }

  function HasTruth(name: string): Pair -> bool {
    (pair: Pair) => pair.0 == name
  }

  function WronglyGuessed(name: string): Pair -> bool {
    (pair: Pair) => pair.1 == name && pair.0 != name
  }

  /** Guesses outside the labels are kept apart: they miss no label. */
  function Missed(labels: seq<string>, name: string): Pair -> bool {
    (pair: Pair) => pair.0 == name && pair.1 != name && pair.1 in labels
  }

  function GuessListed(labels: seq<string>): Pair -> bool {
    (pair: Pair) => pair.1 in labels
  }

  function Confused(labels: seq<string>): Pair -> bool {
    (pair: Pair) => pair.0 != pair.1 && pair.1 in labels
  }

  /** The guesses that are none of the labels, with how often each was made. */
  function Unlisted(labels: seq<string>, pairs: seq<Pair>): multiset<string> {
    if pairs == [] then multiset{}
    else (if pairs[0].1 in labels then multiset{} else multiset{pairs[0].1}) + Unlisted(labels, pairs[1..])
  }

  type Confusion = map<Pair, nat>

  /** Every cell counts the pairs with its truth and its guess. */
  ghost predicate Tallies(confusion: Confusion, labels: seq<string>, pairs: seq<Pair>) {
    forall t, g | t in labels && g in labels ::
      (t, g) in confusion && confusion[(t, g)] == Count(IsPair(t, g), pairs)
  }

  ghost predicate TruthsListed(labels: seq<string>, pairs: seq<Pair>) {
    forall i | 0 <= i < |pairs| :: pairs[i].0 in labels
  }

  /** The labels of the data itself, in order. */
  function LabelsOf(pairs: seq<Pair>): (labels: seq<string>)
    ensures Distinct(labels)
    ensures forall name :: name in labels <==> exists pair <- pairs :: name == pair.0 || name == pair.1
  {
    StringOrder();
    Arranged(StringLeq, (set pair <- pairs :: pair.0) + (set pair <- pairs :: pair.1))
  }

  function EffectiveLabels(given: seq<string>, pairs: seq<Pair>): seq<string> {
    if given != [] then given else LabelsOf(pairs)
  }

  lemma DataLabelsListAll(pairs: seq<Pair>)
    ensures TruthsListed(LabelsOf(pairs), pairs) && Unlisted(LabelsOf(pairs), pairs) == multiset{}
  {
    forall i | 0 <= i < |pairs| ensures pairs[i].0 in LabelsOf(pairs) && pairs[i].1 in LabelsOf(pairs) {
      assert pairs[i] in pairs;
    }
    AllListed(LabelsOf(pairs), pairs);
  }

  lemma {:induction false} AllListed(labels: seq<string>, pairs: seq<Pair>)
    requires forall i | 0 <= i < |pairs| :: pairs[i].1 in labels
    ensures Unlisted(labels, pairs) == multiset{}
  {
    if pairs != [] {
      AllListed(labels, pairs[1..]);
    }
  }

  /** The sum of a column of the matrix but for the diagonal. */
  function ColumnExcept(confusion: Confusion, labels: seq<string>, name: string): nat
    requires forall t | t in labels :: (t, name) in confusion
  {
    if labels == [] then 0
    else (if labels[0] != name then confusion[(labels[0], name)] else 0) + ColumnExcept(confusion, labels[1..], name)
  }

  function RowExcept(confusion: Confusion, labels: seq<string>, name: string): nat
    requires forall g | g in labels :: (name, g) in confusion
  {
    if labels == [] then 0
    else (if labels[0] != name then confusion[(name, labels[0])] else 0) + RowExcept(confusion, labels[1..], name)
  }

  datatype ClassCounts = ClassCounts(truePositive: nat, falsePositive: nat, falseNegative: nat)

  datatype ClassScore = ClassScore(precision: real, recall: real, f1: real, support: nat)

  function ScoreOf(counts: ClassCounts, support: nat): ClassScore {
    var precision := Ratio(counts.truePositive, counts.truePositive + counts.falsePositive);
    var recall := Ratio(counts.truePositive, counts.truePositive + counts.falseNegative);
    ClassScore(precision, recall, HarmonicMean(precision, recall), support)
  }

  datatype Metrics = Metrics(
    accuracy: real,
    perClass: map<string, ClassScore>,
    confusion: Confusion,
    unknown: multiset<string>)

  datatype MetricsError = LengthsDiffer | UnlistedTruth(truth: string)

  /** What the counts of one label mean, said of the pairs alone. */
  function CountsOf(pairs: seq<Pair>, labels: seq<string>, name: string): ClassCounts {
    ClassCounts(
      Count(IsPair(name, name), pairs), Count(WronglyGuessed(name), pairs), Count(Missed(labels, name), pairs))
  }

  /** The same counts summed label by label; a label given twice is summed twice. */
  function SummedCounts(pairs: seq<Pair>, labels: seq<string>, name: string): ClassCounts {
    ClassCounts(Count(IsPair(name, name), pairs), CountOverKeys(WronglyGuessed(name), TruthOf, labels, pairs),
                CountOverKeys(Missed(labels, name), GuessOf, labels, pairs))
  }

  /** Labels given once each are summed once each. */
  lemma DistinctLabelsSumOnce(pairs: seq<Pair>, labels: seq<string>, name: string)
    requires Distinct(labels) && TruthsListed(labels, pairs)
    ensures SummedCounts(pairs, labels, name) == CountsOf(pairs, labels, name)
  {
    GroupsCountTheListed(WronglyGuessed(name), TruthOf, labels, pairs);
    GroupsCountTheListed(Missed(labels, name), GuessOf, labels, pairs);
  }

  /** With label "b" given twice, one wrong guess of "a" for it is two false positives. */
  lemma RepeatedLabelSumsTwice()
    ensures SummedCounts([("b", "a")], ["a", "b", "b"], "a").falsePositive == 2
    ensures CountsOf([("b", "a")], ["a", "b", "b"], "a").falsePositive == 1
  {
    var pairs, test := [("b", "a")], WronglyGuessed("a");
    assert pairs[1..] == [];
    assert GroupCount(test, TruthOf, "a", pairs) == 0 && GroupCount(test, TruthOf, "b", pairs) == 1;
    assert ["a", "b", "b"][1..] == ["b", "b"] && ["b", "b"][1..] == ["b"] && ["b"][1..] == [];
    assert CountOverKeys(test, TruthOf, ["b"], pairs) == 1;
    assert CountOverKeys(test, TruthOf, ["b", "b"], pairs) == 2;
  }

  lemma OneMore<T>(test: T -> bool, s: seq<T>, i: nat)
    requires i < |s|
    ensures Count(test, s[..i + 1]) == Count(test, s[..i]) + if test(s[i]) then 1 else 0
  {
    assert s[..i + 1] == s[..i] + [s[i]];
    CountConcat(test, s[..i], [s[i]]);
    assert [s[i]][1..] == [];
  }

  /** A cell for every truth and guess, nothing tallied yet. */
  function EmptyMatrix(labels: seq<string>): (confusion: Confusion)
    ensures Tallies(confusion, labels, [])
  {
    map t, g | t in labels && g in labels :: (t, g) := 0
  }

  lemma OneMoreListed(labels: seq<string>, pairs: seq<Pair>, i: nat)
    requires i < |pairs| && TruthsListed(labels, pairs[..i]) && pairs[i].0 in labels
    ensures TruthsListed(labels, pairs[..i + 1])
  {
  }

  /** The matrix and the guesses outside it; a truth outside the labels is an error. */
  method Tally(pairs: seq<Pair>, labels: seq<string>)
    returns (result: Result<(Confusion, multiset<string>), MetricsError>)
    ensures result.Ok? <==> TruthsListed(labels, pairs)
    ensures result.Ok? ==>
              Tallies(result.value.0, labels, pairs) && result.value.1 == Unlisted(labels, pairs)
    ensures result.Err? ==>
              exists i | 0 <= i < |pairs| ::
                result.error == UnlistedTruth(pairs[i].0) && pairs[i].0 !in labels && TruthsListed(labels, pairs[..i])
  {
    var confusion := EmptyMatrix(labels);
    var unknown: multiset<string> := multiset{};
    for i := 0 to |pairs|
      invariant Tallies(confusion, labels, pairs[..i])
      invariant unknown == Unlisted(labels, pairs[..i])
      invariant TruthsListed(labels, pairs[..i])
    {
      var pair := pairs[i];
      if pair.0 !in labels {
        return Err(UnlistedTruth(pair.0));
      }
      UnlistedOneMore(labels, pairs, i);
      TallyOne(confusion, labels, pairs, i);
      if pair.1 in labels {
        confusion := confusion[pair := confusion[pair] + 1];
      } else {
        unknown := unknown + multiset{pair.1};
      }
      OneMoreListed(labels, pairs, i);
    }
    assert pairs[..|pairs|] == pairs;
    return Ok((confusion, unknown));
  }

  lemma UnlistedOneMore(labels: seq<string>, pairs: seq<Pair>, i: nat)
    requires i < |pairs|
    ensures Unlisted(labels, pairs[..i + 1])
            == Unlisted(labels, pairs[..i]) + if pairs[i].1 in labels then multiset{} else multiset{pairs[i].1}
  {
    assert pairs[..i + 1] == pairs[..i] + [pairs[i]];
    UnlistedConcat(labels, pairs[..i], [pairs[i]]);
    assert [pairs[i]][1..] == [];
  }

  lemma {:induction false} UnlistedConcat(labels: seq<string>, a: seq<Pair>, b: seq<Pair>)
    ensures Unlisted(labels, a + b) == Unlisted(labels, a) + Unlisted(labels, b)
  {
    if a == [] {
      assert a + b == b;
    } else {
      assert (a + b)[1..] == a[1..] + b;
      UnlistedConcat(labels, a[1..], b);
    }
  }

  lemma TallyOne(confusion: Confusion, labels: seq<string>, pairs: seq<Pair>, i: nat)
    requires i < |pairs| && pairs[i].0 in labels && Tallies(confusion, labels, pairs[..i])
    ensures pairs[i].1 in labels ==>
              Tallies(confusion[pairs[i] := confusion[pairs[i]] + 1], labels, pairs[..i + 1])
    ensures pairs[i].1 !in labels ==> Tallies(confusion, labels, pairs[..i + 1])
  {
    forall t, g | t in labels && g in labels
      ensures Count(IsPair(t, g), pairs[..i + 1])
              == Count(IsPair(t, g), pairs[..i]) + if pairs[i] == (t, g) then 1 else 0
    {
      OneMore(IsPair(t, g), pairs, i);
    }
  }

  /**
   * The matrix tallies the listed guesses, the rest are kept apart, and each label's scores are
   * those of what the pairs say about it.
   */
  method ClassificationMetrics(truths: seq<string>, guesses: seq<string>, given: seq<string>)
    returns (result: Result<Metrics, MetricsError>)
    ensures |truths| != |guesses| <==> result == Err(LengthsDiffer)
    ensures |truths| == |guesses| ==>
              var pairs := Zip(truths, guesses);
              var labels := EffectiveLabels(given, pairs);
              && (result.Ok? <==> TruthsListed(labels, pairs))
              && (result.Ok? ==>
                    var metrics := result.value;
                    && Tallies(metrics.confusion, labels, pairs)
                    && metrics.unknown == Unlisted(labels, pairs)
                    && metrics.accuracy == Ratio(Count(Agrees, pairs), |pairs|)
                    && IsRate(metrics.accuracy, Count(Agrees, pairs), |pairs|)
                    && Scores(metrics.perClass, labels, labels, pairs)
                    && (Distinct(labels) ==>
                          forall name <- labels :: SummedCounts(pairs, labels, name) == CountsOf(pairs, labels, name)))
  {
    if |truths| != |guesses| {
      return Err(LengthsDiffer);
    }
    var pairs := Zip(truths, guesses);
    var labels := EffectiveLabels(given, pairs);
    var tallied := Tally(pairs, labels);
    if tallied.Err? {
      return Err(tallied.error);
    }
    var perClass := PerClass(pairs, labels, tallied.value.0);
    if Distinct(labels) {
      forall name <- labels {
        DistinctLabelsSumOnce(pairs, labels, name);
      }
    }
    var correct := CountCorrect(pairs);
    RatioIsRate(correct, |pairs|);
    return Ok(Metrics(Ratio(correct, |pairs|), perClass, tallied.value.0, tallied.value.1));
  }

  method CountCorrect(pairs: seq<Pair>) returns (correct: nat)
    ensures correct == Count(Agrees, pairs)
  {
    correct := 0;
    for i := 0 to |pairs|
      invariant correct == Count(Agrees, pairs[..i])
    {
      OneMore(Agrees, pairs, i);
      correct := correct + if pairs[i].0 == pairs[i].1 then 1 else 0;
    }
    assert pairs[..|pairs|] == pairs;
  }

  function ScoreFor(pairs: seq<Pair>, labels: seq<string>, name: string): ClassScore {
    ScoreOf(SummedCounts(pairs, labels, name), Count(HasTruth(name), pairs))
  }

  /** A score for each name, that of what the pairs say about it. */
  ghost predicate Scores(
    perClass: map<string, ClassScore>, names: seq<string>, labels: seq<string>, pairs: seq<Pair>)
  {
    && (forall name :: name in perClass <==> name in names)
    && (forall name <- perClass :: perClass[name] == ScoreFor(pairs, labels, name))
  }

  method ScoreLabel(pairs: seq<Pair>, labels: seq<string>, confusion: Confusion, name: string)
    returns (score: ClassScore)
    requires Tallies(confusion, labels, pairs) && name in labels
    ensures score == ScoreFor(pairs, labels, name)
  {
    CellsGiveCounts(confusion, labels, pairs, name);
    var counts := ClassCounts(
      confusion[(name, name)], ColumnExcept(confusion, labels, name), RowExcept(confusion, labels, name));
    score := ScoreOf(counts, Count(HasTruth(name), pairs));
  }

  method PerClass(pairs: seq<Pair>, labels: seq<string>, confusion: Confusion)
    returns (perClass: map<string, ClassScore>)
    requires Tallies(confusion, labels, pairs)
    ensures Scores(perClass, labels, labels, pairs)
  {
    perClass := map[];
    for i := 0 to |labels|
      invariant forall name :: name in perClass <==> name in labels[..i]
      invariant forall name <- perClass :: perClass[name] == ScoreFor(pairs, labels, name)
    {
      assert labels[..i + 1] == labels[..i] + [labels[i]];
      var score := ScoreLabel(pairs, labels, confusion, labels[i]);
      perClass := perClass[labels[i] := score];
    }
    assert labels[..|labels|] == labels;
  }

  // ----- columns and rows -----

  lemma {:induction false} WrongGuessesOfTruth(pairs: seq<Pair>, name: string, truth: string)
    ensures GroupCount(WronglyGuessed(name), TruthOf, truth, pairs)
            == if truth != name then Count(IsPair(truth, name), pairs) else 0
  {
    if pairs != [] {
      WrongGuessesOfTruth(pairs[1..], name, truth);
    }
  }

  lemma {:induction false} MissesOfGuess(pairs: seq<Pair>, labels: seq<string>, name: string, guess: string)
    requires guess in labels
    ensures GroupCount(Missed(labels, name), GuessOf, guess, pairs)
            == if guess != name then Count(IsPair(name, guess), pairs) else 0
  {
    if pairs != [] {
      MissesOfGuess(pairs[1..], labels, name, guess);
    }
  }

  lemma {:induction false} ColumnIsGroups(confusion: Confusion, keys: seq<string>, pairs: seq<Pair>, name: string)
    requires forall t | t in keys :: (t, name) in confusion && confusion[(t, name)] == Count(IsPair(t, name), pairs)
    ensures ColumnExcept(confusion, keys, name) == CountOverKeys(WronglyGuessed(name), TruthOf, keys, pairs)
  {
    if keys != [] {
      assert keys[0] in keys;
      ColumnIsGroups(confusion, keys[1..], pairs, name);
      WrongGuessesOfTruth(pairs, name, keys[0]);
    }
  }

  lemma {:induction false} RowIsGroups(
    confusion: Confusion, labels: seq<string>, keys: seq<string>, pairs: seq<Pair>, name: string)
    requires forall g | g in keys ::
               g in labels && (name, g) in confusion && confusion[(name, g)] == Count(IsPair(name, g), pairs)
    ensures RowExcept(confusion, keys, name) == CountOverKeys(Missed(labels, name), GuessOf, keys, pairs)
  {
    if keys != [] {
      assert keys[0] in keys;
      RowIsGroups(confusion, labels, keys[1..], pairs, name);
      MissesOfGuess(pairs, labels, name, keys[0]);
    }
  }

  lemma CellsGiveCounts(confusion: Confusion, labels: seq<string>, pairs: seq<Pair>, name: string)
    requires Tallies(confusion, labels, pairs) && name in labels
    ensures ClassCounts(
              confusion[(name, name)], ColumnExcept(confusion, labels, name), RowExcept(confusion, labels, name))
            == SummedCounts(pairs, labels, name)
  {
    ColumnIsGroups(confusion, labels, pairs, name);
    RowIsGroups(confusion, labels, labels, pairs, name);
  }

  // ----- totals over all labels -----

  function TotalCounts(pairs: seq<Pair>, labels: seq<string>, names: seq<string>): ClassCounts {
    if names == [] then ClassCounts(0, 0, 0)
    else
      var first, rest := CountsOf(pairs, labels, names[0]), TotalCounts(pairs, labels, names[1..]);
      ClassCounts(first.truePositive + rest.truePositive, first.falsePositive + rest.falsePositive,
                  first.falseNegative + rest.falseNegative)
  }

  lemma {:induction false} CountsAreGroups(pairs: seq<Pair>, labels: seq<string>, name: string)
    requires name in labels
    ensures Count(IsPair(name, name), pairs) == GroupCount(Agrees, TruthOf, name, pairs)
    ensures Count(WronglyGuessed(name), pairs) == GroupCount(Confused(labels), GuessOf, name, pairs)
    ensures Count(Missed(labels, name), pairs) == GroupCount(Confused(labels), TruthOf, name, pairs)
  {
    if pairs != [] {
      CountsAreGroups(pairs[1..], labels, name);
    }
  }

  lemma {:induction false} TotalsAreGroups(pairs: seq<Pair>, labels: seq<string>, names: seq<string>)
    requires forall name | name in names :: name in labels
    ensures TotalCounts(pairs, labels, names)
            == ClassCounts(CountOverKeys(Agrees, TruthOf, names, pairs),
                           CountOverKeys(Confused(labels), GuessOf, names, pairs),
                           CountOverKeys(Confused(labels), TruthOf, names, pairs))
  {
    if names != [] {
      assert names[0] in names;
      TotalsAreGroups(pairs, labels, names[1..]);
      CountsAreGroups(pairs, labels, names[0]);
    }
  }

  /** Every prediction is right, confuses two labels, or is none of the labels. */
  lemma {:induction false} RightConfusedOrUnlisted(pairs: seq<Pair>, labels: seq<string>)
    requires TruthsListed(labels, pairs)
    ensures Count(Agrees, pairs) + Count(Confused(labels), pairs) + |Unlisted(labels, pairs)| == |pairs|
    ensures Count(GuessListed(labels), pairs) + |Unlisted(labels, pairs)| == |pairs|
  {
    if pairs != [] {
      RightConfusedOrUnlisted(pairs[1..], labels);
    }
  }

  /**
   * Over all labels the true positives sum to the right predictions, and the false positives and
   * the false negatives both sum to the wrong ones, less those that are none of the labels.
   */
  lemma CountsSumToPredictions(pairs: seq<Pair>, labels: seq<string>)
    requires Distinct(labels) && TruthsListed(labels, pairs)
    ensures var totals := TotalCounts(pairs, labels, labels);
            && totals.truePositive == Count(Agrees, pairs)
            && totals.falsePositive == |pairs| - Count(Agrees, pairs) - |Unlisted(labels, pairs)|
            && totals.falseNegative == |pairs| - Count(Agrees, pairs) - |Unlisted(labels, pairs)|
  {
    TotalsAreGroups(pairs, labels, labels);
    GroupsCountTheListed(Agrees, TruthOf, labels, pairs);
    GroupsCountTheListed(Confused(labels), GuessOf, labels, pairs);
    GroupsCountTheListed(Confused(labels), TruthOf, labels, pairs);
    RightConfusedOrUnlisted(pairs, labels);
  }

  /** With the labels of the data itself, nothing is left out of the totals. */
  lemma DataLabelsCountEverything(pairs: seq<Pair>)
    ensures var totals := TotalCounts(pairs, LabelsOf(pairs), LabelsOf(pairs));
            && totals.truePositive == Count(Agrees, pairs)
            && totals.falsePositive == totals.falseNegative == |pairs| - Count(Agrees, pairs)
  {
    DataLabelsListAll(pairs);
    CountsSumToPredictions(pairs, LabelsOf(pairs));
  }

  function RowSum(confusion: Confusion, labels: seq<string>, name: string): nat
    requires forall g | g in labels :: (name, g) in confusion
  {
    if labels == [] then 0 else confusion[(name, labels[0])] + RowSum(confusion, labels[1..], name)
  }

  function MatrixSum(confusion: Confusion, rows: seq<string>, labels: seq<string>): nat
    requires forall t, g | t in rows && g in labels :: (t, g) in confusion
  {
    if rows == [] then 0 else RowSum(confusion, labels, rows[0]) + MatrixSum(confusion, rows[1..], labels)
  }

  function ListedWithTruth(labels: seq<string>, name: string): Pair -> bool {
    (pair: Pair) => pair.0 == name && pair.1 in labels
  }

  lemma {:induction false} RowGroups(pairs: seq<Pair>, labels: seq<string>, name: string, guess: string)
    ensures guess in labels ==>
              GroupCount(ListedWithTruth(labels, name), GuessOf, guess, pairs) == Count(IsPair(name, guess), pairs)
    ensures GroupCount(GuessListed(labels), TruthOf, name, pairs) == Count(ListedWithTruth(labels, name), pairs)
  {
    if pairs != [] {
      RowGroups(pairs[1..], labels, name, guess);
    }
  }

  lemma {:induction false} RowSumIsGroups(
    confusion: Confusion, labels: seq<string>, keys: seq<string>, pairs: seq<Pair>, name: string)
    requires forall g | g in keys ::
               g in labels && (name, g) in confusion && confusion[(name, g)] == Count(IsPair(name, g), pairs)
    ensures RowSum(confusion, keys, name) == CountOverKeys(ListedWithTruth(labels, name), GuessOf, keys, pairs)
  {
    if keys != [] {
      assert keys[0] in keys;
      RowSumIsGroups(confusion, labels, keys[1..], pairs, name);
      RowGroups(pairs, labels, name, keys[0]);
    }
  }

  lemma {:induction false} MatrixSumIsGroups(
    confusion: Confusion, rows: seq<string>, labels: seq<string>, pairs: seq<Pair>)
    requires Distinct(labels) && Tallies(confusion, labels, pairs)
    requires forall t | t in rows :: t in labels
    ensures MatrixSum(confusion, rows, labels) == CountOverKeys(GuessListed(labels), TruthOf, rows, pairs)
  {
    if rows != [] {
      assert rows[0] in rows;
      MatrixSumIsGroups(confusion, rows[1..], labels, pairs);
      RowSumIsGroups(confusion, labels, labels, pairs, rows[0]);
      GroupsCountTheListed(ListedWithTruth(labels, rows[0]), GuessOf, labels, pairs);
      RowGroups(pairs, labels, rows[0], rows[0]);
    }
  }

  /** The cells of the confusion matrix and the guesses outside it make up all predictions. */
  lemma CellsSumToPredictions(confusion: Confusion, labels: seq<string>, pairs: seq<Pair>)
    requires Distinct(labels) && TruthsListed(labels, pairs) && Tallies(confusion, labels, pairs)
    ensures MatrixSum(confusion, labels, labels) + |Unlisted(labels, pairs)| == |pairs|
  {
    MatrixSumIsGroups(confusion, labels, labels, pairs);
    GroupsCountTheListed(GuessListed(labels), TruthOf, labels, pairs);
    RightConfusedOrUnlisted(pairs, labels);
  }

  // ----- one label's score -----

  lemma {:induction false} SupportSplits(pairs: seq<Pair>, labels: seq<string>, name: string)
    ensures var counts := CountsOf(pairs, labels, name);
            name in labels ==>
              Count(HasTruth(name), pairs)
              == counts.truePositive + counts.falseNegative + Count(StraysFrom(labels, name), pairs)
  {
    if pairs != [] {
      SupportSplits(pairs[1..], labels, name);
    }
  }

  function StraysFrom(labels: seq<string>, name: string): Pair -> bool {
    (pair: Pair) => pair.0 == name && pair.1 !in labels
  }

  /**
   * A label's f1 is twice its hits over both its counts, and is one exactly when the label was hit
   * and never confused; its support exceeds what recall is measured against by the guesses for it
   * that are none of the labels.
   */
  lemma ClassScoreExactly(pairs: seq<Pair>, labels: seq<string>, name: string)
    requires name in labels
    ensures var counts := CountsOf(pairs, labels, name);
            var score := ScoreOf(counts, Count(HasTruth(name), pairs));
            && score.f1 == Ratio(2 * counts.truePositive,
                                 2 * counts.truePositive + counts.falsePositive + counts.falseNegative)
            && (score.f1 == 1.0 <==>
                  counts.truePositive > 0 && counts.falsePositive == 0 && counts.falseNegative == 0)
            && score.support
               == counts.truePositive + counts.falseNegative + Count(StraysFrom(labels, name), pairs)
  {
    var counts := CountsOf(pairs, labels, name);
    var t, p, n := counts.truePositive, counts.falsePositive, counts.falseNegative;
    HarmonicMeanOfRatios(t, t + p, t + n);
    if 2 * t + p + n > 0 {
      RatioIsOne(2 * t, 2 * t + p + n);
    }
    SupportSplits(pairs, labels, name);
  }

  function GuessedAs(name: string): Pair -> bool {
    (pair: Pair) => pair.1 == name
  }

  lemma {:induction false} GuessesSplit(pairs: seq<Pair>, labels: seq<string>, name: string)
    ensures var counts := CountsOf(pairs, labels, name);
            && Count(GuessedAs(name), pairs) == counts.truePositive + counts.falsePositive
            && (name in labels ==>
                  Count(ListedWithTruth(labels, name), pairs) == counts.truePositive + counts.falseNegative)
  {
    if pairs != [] {
      GuessesSplit(pairs[1..], labels, name);
    }
  }

  /**
   * Precision is the right guesses out of all guesses of the label; recall is the right guesses out
   * of the listed guesses made where the label was true.
   */
  lemma PrecisionOfGuessesRecallOfTruths(pairs: seq<Pair>, labels: seq<string>, name: string)
    requires Distinct(labels) && TruthsListed(labels, pairs) && name in labels
    ensures var score, hits := ScoreFor(pairs, labels, name), Count(IsPair(name, name), pairs);
            && IsRate(score.precision, hits, Count(GuessedAs(name), pairs))
            && IsRate(score.recall, hits, Count(ListedWithTruth(labels, name), pairs))
            && score.support == Count(HasTruth(name), pairs)
  {
    DistinctLabelsSumOnce(pairs, labels, name);
    GuessesSplit(pairs, labels, name);
    RatioIsRate(Count(IsPair(name, name), pairs), Count(GuessedAs(name), pairs));
    RatioIsRate(Count(IsPair(name, name), pairs), Count(ListedWithTruth(labels, name), pairs));
  }

  /** Each guess is kept apart as often as it was made, if it is none of the labels. */
  lemma {:induction false} UnlistedCountsGuesses(labels: seq<string>, pairs: seq<Pair>, guess: string)
    ensures Unlisted(labels, pairs)[guess] == if guess in labels then 0 else Count(GuessedAs(guess), pairs)
  {
    if pairs != [] {
      UnlistedCountsGuesses(labels, pairs[1..], guess);
    }
  }

  lemma OneStrayGuess()
    ensures var labels, pairs := ["a"], [("a", "a"), ("a", "z")];
            && CountsOf(pairs, labels, "a") == ClassCounts(1, 0, 0)
            && Count(Agrees, pairs) == 1 && Count(HasTruth("a"), pairs) == 2
  {
    var right, stray := ("a", "a"), ("a", "z");
    assert [right, stray][1..] == [stray] && [stray][1..] == [];
    assert Count(Agrees, [stray]) == 0 && Count(IsPair("a", "a"), [stray]) == 0;
    assert Count(WronglyGuessed("a"), [stray]) == 0 && Count(Missed(["a"], "a"), [stray]) == 0;
    assert Count(HasTruth("a"), [stray]) == 1;
  }

  /** One of two guesses for a label is none of the labels: half right, yet nothing is missed and f1 is one. */
  lemma UnlistedGuessCostsNoRecall()
    ensures var labels, pairs := ["a"], [("a", "a"), ("a", "z")];
            && Ratio(Count(Agrees, pairs), |pairs|) == 0.5
            && ScoreOf(CountsOf(pairs, labels, "a"), Count(HasTruth("a"), pairs)) == ClassScore(1.0, 1.0, 1.0, 2)
  {
    OneStrayGuess();
    assert HarmonicMean(1.0, 1.0) == 1.0;
  }

  // ----- extraction scores -----

  /** What a response parses to: nothing, something other than an object, or an object's fields. */
  datatype Parsed<V> = NotJson | NotAnObject | Object(fields: map<string, V>)

  datatype Score = Score(
    jsonValid: bool,
    requiredExact: bool,
    precision: real,
    recall: real,
    fieldF1: real,
    wholeRecord: bool)

  function Matches<V(==)>(fields: map<string, V>, expected: map<string, V>): set<string> {
    set key <- expected | key in fields && fields[key] == expected[key]
  }

  function Spurious<V(==)>(fields: map<string, V>, expected: map<string, V>): set<string> {
    set key <- fields | key !in expected || key !in Matches(fields, expected)
  }

  function Evaluate<V(==)>(parsed: Parsed<V>, expected: map<string, V>): Score {
    match parsed
    case NotJson => Score(false, false, 0.0, 0.0, 0.0, false)
    case NotAnObject => Score(true, false, 0.0, 0.0, 0.0, false)
    case Object(fields) =>
      var truePositive := |Matches(fields, expected)|;
      MatchesAreFields(fields, expected);
      var falseNegative: nat := |expected| - truePositive;
      var falsePositive := |Spurious(fields, expected)|;
      var precision := Ratio(truePositive, truePositive + falsePositive);
      var recall := Ratio(truePositive, truePositive + falseNegative);
      var requiredExact := forall key <- expected :: key in Matches(fields, expected);
      Score(true, requiredExact, precision, recall, HarmonicMean(precision, recall),
            requiredExact && fields.Keys == expected.Keys)
  }

  /** Matched fields are fields of both records, and the spurious ones are the rest of what was parsed. */
  lemma MatchesAreFields<V>(fields: map<string, V>, expected: map<string, V>)
    ensures |Matches(fields, expected)| <= |expected|
    ensures |Matches(fields, expected)| + |Spurious(fields, expected)| == |fields|
    ensures |Matches(fields, expected)| == |expected| <==> Matches(fields, expected) == expected.Keys
  {
    var matches, spurious := Matches(fields, expected), Spurious(fields, expected);
    SubsetSize(matches, expected.Keys);
    assert matches !! spurious && matches + spurious == fields.Keys;
  }

  lemma SubsetSize<T>(a: set<T>, b: set<T>)
    requires a <= b
    ensures |a| <= |b|
    ensures |a| == |b| <==> a == b
  {
    assert b == a + (b - a);
  }

  /**
   * The field score is twice the matches over both field counts; it is one exactly when the whole
   * record is matched and something was expected.
   */
  lemma FieldScoreExactly<V>(fields: map<string, V>, expected: map<string, V>)
    ensures var score := Evaluate(Object(fields), expected);
            && score.fieldF1 == Ratio(2 * |Matches(fields, expected)|, |fields| + |expected|)
            && (score.fieldF1 == 1.0 <==> score.wholeRecord && |expected| > 0)
  {
    MatchesAreFields(fields, expected);
    var t, p, e := |Matches(fields, expected)|, |fields|, |expected|;
    HarmonicMeanOfRatios(t, p, e);
    assert Matches(fields, expected) <= fields.Keys;
    SubsetSize(Matches(fields, expected), fields.Keys);
    if p + e > 0 {
      RatioIsOne(2 * t, p + e);
    }
  }

  /**
   * Field precision is the matches out of the fields given, field recall out of those expected; the
   * required fields are exact when every expected one matches, the whole record when it is the
   * expected one.
   */
  lemma FieldPrecisionAndRecall<V>(fields: map<string, V>, expected: map<string, V>)
    ensures var score, matches := Evaluate(Object(fields), expected), |Matches(fields, expected)|;
            && IsRate(score.precision, matches, |fields|)
            && IsRate(score.recall, matches, |expected|)
            && (score.requiredExact <==> forall key <- expected :: key in fields && fields[key] == expected[key])
            && (score.wholeRecord <==> fields == expected)
            && score.jsonValid
  {
    MatchesAreFields(fields, expected);
    RatioIsRate(|Matches(fields, expected)|, |fields|);
    RatioIsRate(|Matches(fields, expected)|, |expected|);
  }

  /** What is not an object scores nothing, and only what is not JSON is called invalid. */
  lemma UnparsedScoresNothing<V>(parsed: Parsed<V>, expected: map<string, V>)
    requires !parsed.Object?
    ensures var score := Evaluate(parsed, expected);
            && (score.jsonValid <==> !parsed.NotJson?)
            && !score.requiredExact && !score.wholeRecord
            && score.precision == score.recall == score.fieldF1 == 0.0
  {
  }

  /** Nothing expected and nothing given: the whole record is right and field f1 is zero. */
  lemma EmptyRecordScoresNothing()
    ensures var score := Evaluate<int>(Object(map[]), map[]);
            score.wholeRecord && score.fieldF1 == 0.0
  {
    FieldScoreExactly<int>(map[], map[]);
  }
}
