/**
 * Request counters and how attempt histories are recorded. A labelled counter family is a
 * multiset of label values: incrementing a label adds one occurrence of it.
 */
module Telemetry {
  import opened Domain

  datatype Outcome = Succeeded | Denied | FailedWith(errorClass: ErrorClass)

  /** The labels that stay the same throughout one request. */
  datatype Caller = Caller(modelAlias: string, workload: string, team: string)

  datatype RequestLabel = RequestLabel(provider: string, caller: Caller, outcome: Outcome)

  datatype ErrorLabel = ErrorLabel(provider: string, errorClass: ErrorClass)

  datatype FallbackLabel = FallbackLabel(fromProvider: string, toProvider: string, reason: ErrorClass)

  /** The errors counted for a history: one per failed attempt. */
  function Errors(log: seq<AttemptOutcome>): multiset<ErrorLabel> {
    if log == [] then multiset{}
    else
      (if log[0].errorClass.Some? then multiset{ErrorLabel(log[0].provider, log[0].errorClass.value)} else multiset{})
      + Errors(log[1..])
  }

  /** The fallbacks counted for a history: one per failed attempt that has a successor. */
  function Transitions(log: seq<AttemptOutcome>): multiset<FallbackLabel> {
    if |log| < 2 then multiset{}
    else
      (if log[0].errorClass.Some?
       then multiset{FallbackLabel(log[0].provider, log[1].provider, log[0].errorClass.value)} else multiset{})
      + Transitions(log[1..])
  }

  /** The values of all counter families at one moment. */
  datatype Counters = Counters(
    requests: multiset<RequestLabel>,
    errors: multiset<ErrorLabel>,
    fallbacks: multiset<FallbackLabel>,
    denials: nat)

  class Metrics {
    var requestsTotal: multiset<RequestLabel>
    var providerErrorsTotal: multiset<ErrorLabel>
    var fallbackTotal: multiset<FallbackLabel>
    // Its only label value is "no_permitted_route".
    var policyDeniedTotal: nat

    constructor ()
      ensures Counts() == Counters(multiset{}, multiset{}, multiset{}, 0)
    {
      requestsTotal, providerErrorsTotal, fallbackTotal := multiset{}, multiset{}, multiset{};
      policyDeniedTotal := 0;
    }

    function Counts(): Counters
      reads this
    {
      Counters(requestsTotal, providerErrorsTotal, fallbackTotal, policyDeniedTotal)
    }

    method CountRequest(key: RequestLabel)
      modifies this`requestsTotal
      ensures requestsTotal == old(requestsTotal) + multiset{key}
    {
      requestsTotal := requestsTotal + multiset{key};
    }

    method CountDenial()
      modifies this`policyDeniedTotal
      ensures policyDeniedTotal == old(policyDeniedTotal) + 1
    {
      policyDeniedTotal := policyDeniedTotal + 1;
    }

    method CountError(key: ErrorLabel)
      modifies this`providerErrorsTotal
      ensures providerErrorsTotal == old(providerErrorsTotal) + multiset{key}
    {
      providerErrorsTotal := providerErrorsTotal + multiset{key};
    }

    method RecordAttemptHistory(attempts: seq<AttemptOutcome>)
      modifies this`providerErrorsTotal, this`fallbackTotal
      ensures providerErrorsTotal == old(providerErrorsTotal) + Errors(attempts)
      ensures fallbackTotal == old(fallbackTotal) + Transitions(attempts)
    {
      for index := 0 to |attempts|
        invariant providerErrorsTotal + Errors(attempts[index..]) == old(providerErrorsTotal) + Errors(attempts)
        invariant fallbackTotal + Transitions(attempts[index..]) == old(fallbackTotal) + Transitions(attempts)
      {
        var attempt := attempts[index];
        assert attempts[index..][1..] == attempts[index + 1..];
        if attempt.errorClass.None? {
          continue;
        }
        CountError(ErrorLabel(attempt.provider, attempt.errorClass.value));
        if index + 1 < |attempts| {
          fallbackTotal := fallbackTotal
          + multiset{FallbackLabel(attempt.provider, attempts[index + 1].provider, attempt.errorClass.value)};
        }
      }
    }
  }

  // ----- what the counters mean -----

  function Failures(log: seq<AttemptOutcome>, key: ErrorLabel): set<nat> {
    set i: nat | i < |log| && log[i].provider == key.provider && log[i].errorClass == Some(key.errorClass)
  }

  lemma {:induction false} ShiftedCount(s: set<nat>, t: set<nat>)
    requires t == set i <- s :: i + 1
    ensures |s| == |t|
    decreases |s|
  {
    if s != {} {
      var i :| i in s;
      var fewer, later := s - {i}, t - {i + 1};
      forall j | j in later ensures j in (set k <- fewer :: k + 1) {
        var k :| k in s && j == k + 1;
        assert k in fewer;
      }
      ShiftedCount(fewer, later);
    }
  }

  /** A set of positions after the first is the shifted set of the positions they have without it. */
  lemma IsShifted(s: set<nat>, t: set<nat>)
    requires 0 !in t
    requires forall i: nat | i > 0 :: i in t <==> i - 1 in s
    ensures t == set i <- s :: i + 1
  {
    forall j | j in t ensures j in (set i <- s :: i + 1) {
      assert j - 1 in s;
    }
    forall i | i in s ensures i + 1 in t {
      assert (i + 1) - 1 in s;
    }
  }

  /** Each error label rises by the number of attempts that failed at that provider with that class. */
  lemma {:induction false} ErrorsCountFailedAttempts(log: seq<AttemptOutcome>, key: ErrorLabel)
    ensures Errors(log)[key] == |Failures(log, key)|
  {
    if log != [] {
      ErrorsCountFailedAttempts(log[1..], key);
      FailuresShift(log, key);
    } else {
      assert Failures(log, key) == {};
    }
  }

  lemma FailuresShift(log: seq<AttemptOutcome>, key: ErrorLabel)
    requires log != []
    ensures |Failures(log, key)|
            == |Failures(log[1..], key)|
               + if log[0].provider == key.provider && log[0].errorClass == Some(key.errorClass) then 1 else 0
  {
    var later := Failures(log, key) - {0};
    IsShifted(Failures(log[1..], key), later);
    ShiftedCount(Failures(log[1..], key), later);
    if 0 in Failures(log, key) {
      assert Failures(log, key) == later + {0};
    } else {
      assert Failures(log, key) == later;
    }
  }

  /** The attempts that failed for a reason at one provider and were followed by one at another. */
  function Handovers(log: seq<AttemptOutcome>, key: FallbackLabel): set<nat> {
    set i: nat | i < |log| - 1 && log[i].provider == key.fromProvider && log[i + 1].provider == key.toProvider
                 && log[i].errorClass == Some(key.reason)
  }

  /** Each fallback label rises by the number of handovers between its two providers for its reason. */
  lemma {:induction false} TransitionsCountHandovers(log: seq<AttemptOutcome>, key: FallbackLabel)
    ensures Transitions(log)[key] == |Handovers(log, key)|
  {
    if |log| >= 2 {
      TransitionsCountHandovers(log[1..], key);
      HandoversShift(log, key);
    } else {
      assert Handovers(log, key) == {};
    }
  }

  lemma HandoversShift(log: seq<AttemptOutcome>, key: FallbackLabel)
    requires |log| >= 2
    ensures |Handovers(log, key)| == |Handovers(log[1..], key)| + if 0 in Handovers(log, key) then 1 else 0
  {
    var later := Handovers(log, key) - {0};
    IsShifted(Handovers(log[1..], key), later);
    ShiftedCount(Handovers(log[1..], key), later);
    if 0 in Handovers(log, key) {
      assert Handovers(log, key) == later + {0};
    } else {
      assert Handovers(log, key) == later;
    }
  }

  ghost predicate AllButLastFailed(log: seq<AttemptOutcome>) {
    forall j | 0 <= j < |log| - 1 :: log[j].errorClass.Some?
  }

  /** A history whose attempts all failed but perhaps the last has one fallback between neighbours. */
  lemma {:induction false} TransitionsJoinNeighbours(log: seq<AttemptOutcome>)
    requires AllButLastFailed(log)
    ensures |Transitions(log)| == if log == [] then 0 else |log| - 1
  {
    if |log| >= 2 {
      TransitionsJoinNeighbours(log[1..]);
    }
  }

  /** Such a history has one error for each attempt but a last one that succeeded. */
  lemma {:induction false} ErrorsForAllButSuccess(log: seq<AttemptOutcome>)
    requires AllButLastFailed(log)
    ensures |Errors(log)| == if log != [] && log[|log| - 1].errorClass.None? then |log| - 1 else |log|
  {
    if |log| >= 2 {
      ErrorsForAllButSuccess(log[1..]);
    } else if |log| == 1 {
      assert log[1..] == [];
    }
  }
}
