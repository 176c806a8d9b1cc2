/** The weighted request mix of a hybrid scenario is an exact round robin. */
module RequestMix {
  import opened Domain
  import opened Arithmetic

  type Weight = w: int | 1 <= w <= 1000 witness 1

  datatype RequestProfile = RequestProfile(dataClass: DataClass, qualityTier: QualityTier, weight: Weight)

  function Total(profiles: seq<RequestProfile>): nat {
    if profiles == [] then 0 else profiles[0].weight + Total(profiles[1..])
  }

  /** The position of the profile that owns a slot. */
  function Owner(profiles: seq<RequestProfile>, slot: nat): (i: nat)
    requires slot < Total(profiles)
    ensures i < |profiles|
  {
    if slot < profiles[0].weight then 0 else 1 + Owner(profiles[1..], slot - profiles[0].weight)
  }

  /** The position selected for a request. */
  function Selected(profiles: seq<RequestProfile>, requestIndex: nat): nat
    requires profiles != []
  {
    Owner(profiles, requestIndex % Total(profiles))
  }

  /** The class and tier of a request: the scenario's own without a mix, else the selected profile's. */
  method ProfileFor(
    profiles: seq<RequestProfile>, dataClass: DataClass, qualityTier: QualityTier, requestIndex: nat)
    returns (chosen: (DataClass, QualityTier))
    ensures profiles == [] ==> chosen == (dataClass, qualityTier)
    ensures profiles != [] ==>
              var profile := profiles[Selected(profiles, requestIndex)];
              chosen == (profile.dataClass, profile.qualityTier)
  {
    if profiles == [] {
      return (dataClass, qualityTier);
    }
    var slot := requestIndex % TotalWeight(profiles);
    for i := 0 to |profiles|
      invariant 0 <= slot < Total(profiles[i..])
      invariant Owner(profiles, requestIndex % Total(profiles)) == i + Owner(profiles[i..], slot)
    {
      assert profiles[i..][1..] == profiles[i + 1..];
      if slot < profiles[i].weight {
        return (profiles[i].dataClass, profiles[i].qualityTier);
      }
      slot := slot - profiles[i].weight;
    }
    // The weighted selection cannot be exhausted.
    assert false;
  }

  function TotalWeight(profiles: seq<RequestProfile>): (total: nat)
    requires profiles != []
    ensures total == Total(profiles) && total > 0
  {
    Total(profiles)
  }

  // ----- exactness -----

  /** The weight in front of position i. */
  function Before(profiles: seq<RequestProfile>, i: nat): nat
    requires i <= |profiles|
  {
    if i == 0 then 0 else profiles[0].weight + Before(profiles[1..], i - 1)
  }

  /** Position i owns exactly the slots of its own weight, after all weight in front of it. */
  lemma {:induction false} OwnsItsSlots(profiles: seq<RequestProfile>, i: nat, slot: nat)
    requires i < |profiles| && slot < Total(profiles)
    ensures Owner(profiles, slot) == i <==> Before(profiles, i) <= slot < Before(profiles, i) + profiles[i].weight
    ensures Before(profiles, i) + profiles[i].weight <= Total(profiles)
    decreases i
  {
    if i > 0 {
      var first := profiles[0].weight;
      if slot >= first {
        OwnsItsSlots(profiles[1..], i - 1, slot - first);
      } else {
        OwnsItsSlots(profiles[1..], i - 1, 0);
      }
    }
  }

  /** How often position i is selected by the first n requests. */
  function TimesSelected(profiles: seq<RequestProfile>, i: nat, n: nat): nat
    requires profiles != []
  {
    if n == 0 then 0
    else TimesSelected(profiles, i, n - 1) + if Selected(profiles, n - 1) == i then 1 else 0
  }

  function Clamped(x: int, high: nat): nat {
    if x < 0 then 0 else if x > high then high else x
  }

  lemma QuotientIs(n: nat, w: nat, q: nat, r: nat)
    requires w > 0 && n == q * w + r && r < w
    ensures n / w == q && n % w == r
  {
    var p, s := n / w, n % w;
    assert n == p * w + s;
    if p < q {
      assert (p + 1) * w == p * w + w;
      Scaled(p + 1, q, w);
    } else if q < p {
      assert (q + 1) * w == q * w + w;
      Scaled(q + 1, p, w);
    }
  }

  lemma NextRequest(n: nat, w: nat)
    requires w > 0
    ensures n % w + 1 < w ==> (n + 1) / w == n / w && (n + 1) % w == n % w + 1
    ensures n % w + 1 == w ==> (n + 1) / w == n / w + 1 && (n + 1) % w == 0
  {
    var q, r := n / w, n % w;
    assert n == q * w + r;
    if r + 1 < w {
      QuotientIs(n + 1, w, q, r + 1);
    } else {
      assert (q + 1) * w == q * w + w;
      QuotientIs(n + 1, w, q + 1, 0);
    }
  }

  /** What position i is owed after some full turns and the first `rest` slots of the next. */
  function Owed(profiles: seq<RequestProfile>, i: nat, turns: nat, rest: nat): nat
    requires i < |profiles|
  {
    turns * profiles[i].weight + Clamped(rest - Before(profiles, i), profiles[i].weight)
  }

  /** One more slot owes one more selection to its owner alone; the last slot completes the turn. */
  lemma OneMoreSlot(profiles: seq<RequestProfile>, i: nat, turns: nat, slot: nat)
    requires i < |profiles| && slot < Total(profiles)
    ensures var owned := if Owner(profiles, slot) == i then 1 else 0;
            && (slot + 1 < Total(profiles) ==>
                  Owed(profiles, i, turns, slot + 1) == Owed(profiles, i, turns, slot) + owned)
            && (slot + 1 == Total(profiles) ==>
                  Owed(profiles, i, turns + 1, 0) == Owed(profiles, i, turns, slot) + owned)
  {
    OwnsItsSlots(profiles, i, slot);
    assert (turns + 1) * profiles[i].weight == turns * profiles[i].weight + profiles[i].weight;
  }

  /**
   * After n requests position i has been selected once per unit of weight in every full turn, and
   * for its share of the turn begun.
   */
  lemma ClosedForm(profiles: seq<RequestProfile>, i: nat, n: nat)
    requires i < |profiles|
    ensures var total := TotalWeight(profiles);
            TimesSelected(profiles, i, n)
            == n / total * profiles[i].weight + Clamped(n % total - Before(profiles, i), profiles[i].weight)
  {
    OwedAfter(profiles, i, n, TotalWeight(profiles));
  }

  lemma OneMoreRequest(profiles: seq<RequestProfile>, i: nat, n: nat, total: nat)
    requires i < |profiles| && total == TotalWeight(profiles)
    ensures Owed(profiles, i, (n + 1) / total, (n + 1) % total)
            == Owed(profiles, i, n / total, n % total) + if Selected(profiles, n) == i then 1 else 0
  {
    NextRequest(n, total);
    OneMoreSlot(profiles, i, n / total, n % total);
  }

  lemma {:induction false} OwedAfter(profiles: seq<RequestProfile>, i: nat, n: nat, total: nat)
    requires i < |profiles| && total == TotalWeight(profiles)
    ensures TimesSelected(profiles, i, n) == Owed(profiles, i, n / total, n % total)
    decreases n
  {
    if n == 0 {
      QuotientIs(0, total, 0, 0);
    } else {
      OwedAfter(profiles, i, n - 1, total);
      OneMoreRequest(profiles, i, n - 1, total);
    }
  }

  /** Any window of as many consecutive requests as the total weight selects position i exactly weight times. */
  lemma WindowIsExact(profiles: seq<RequestProfile>, i: nat, start: nat)
    requires i < |profiles|
    ensures TimesSelected(profiles, i, start + TotalWeight(profiles)) - TimesSelected(profiles, i, start)
            == profiles[i].weight
  {
    var total := TotalWeight(profiles);
    var turns, rest := start / total, start % total;
    OwedAfter(profiles, i, start, total);
    OwedAfter(profiles, i, start + total, total);
    NextTurn(start, total);
    OwedNextTurn(profiles, i, turns, rest);
  }

  lemma NextTurn(n: nat, w: nat)
    requires w > 0
    ensures (n + w) / w == n / w + 1 && (n + w) % w == n % w
  {
    assert n == n / w * w + n % w;
    assert (n / w + 1) * w == n / w * w + w;
    QuotientIs(n + w, w, n / w + 1, n % w);
  }

  lemma OwedNextTurn(profiles: seq<RequestProfile>, i: nat, turns: nat, rest: nat)
    requires i < |profiles|
    ensures Owed(profiles, i, turns + 1, rest) == Owed(profiles, i, turns, rest) + profiles[i].weight
  {
    assert (turns + 1) * profiles[i].weight == turns * profiles[i].weight + profiles[i].weight;
  }
}
