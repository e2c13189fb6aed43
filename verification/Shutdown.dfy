/** The time budget of `ApplicationRunner.shutdownOrchestrator`. */
module Shutdown {
  import opened Common

  /** One `Stop` call: which service, the timeout it was given, the time it took,
      whether its context was done on arrival, and its error. */
  datatype StopCall = StopCall(service: nat, budget: nat, elapsed: nat, doneOnArrival: bool, error: Option<int>)

  function Total(calls: seq<StopCall>): nat
  {
    if calls == [] then 0 else Total(calls[..|calls| - 1]) + calls[|calls| - 1].elapsed
  }

  /** What is left of the timeout after some calls. */
  function Left(timeout: nat, calls: seq<StopCall>): nat
  {
    if Total(calls) <= timeout then timeout - Total(calls) else 0
  }

  /** An equal share of what is left for each of `m` services. */
  function Share(left: nat, m: nat): nat
    requires m >= 1
  {
    left / m
  }

  /** The errors of the calls that failed, in call order. */
  function Errors(calls: seq<StopCall>): seq<(nat, int)>
  {
    if calls == [] then [] else
      var last := calls[|calls| - 1];
      Errors(calls[..|calls| - 1]) + (if last.error.Some? then [(last.service, last.error.value)] else [])
  }

  /** The calls stop services `n - 1`, `n - 2`, … and each gets an equal share of
      what is left for the services still running. */
  ghost predicate Paced(timeout: nat, n: nat, calls: seq<StopCall>)
  {
    && |calls| <= n
    && forall j :: 0 <= j < |calls| ==>
         && calls[j].service == n - 1 - j
         && calls[j].budget == Share(Left(timeout, calls[..j]), n - j)
  }

  ghost predicate WithinBudget(calls: seq<StopCall>)
  {
    forall j :: 0 <= j < |calls| ==> calls[j].elapsed <= calls[j].budget
  }

  lemma Extend(timeout: nat, calls: seq<StopCall>, call: StopCall)
    ensures (calls + [call])[..|calls|] == calls
    ensures Total(calls + [call]) == Total(calls) + call.elapsed
    ensures Left(timeout, calls + [call]) ==
              if Left(timeout, calls) >= call.elapsed then Left(timeout, calls) - call.elapsed else 0
    ensures Errors(calls + [call]) ==
              Errors(calls) + (if call.error.Some? then [(call.service, call.error.value)] else [])
  {
    assert (calls + [call])[..|calls|] == calls;
  }

  lemma PacedExtend(timeout: nat, n: nat, calls: seq<StopCall>, call: StopCall)
    requires Paced(timeout, n, calls) && |calls| < n
    requires call.service == n - 1 - |calls|
    requires call.budget == Share(Left(timeout, calls), n - |calls|)
    ensures Paced(timeout, n, calls + [call])
  {
    var after := calls + [call];
    forall j | 0 <= j < |after|
      ensures after[j].service == n - 1 - j && after[j].budget == Share(Left(timeout, after[..j]), n - j)
    {
      if j < |calls| {
        assert after[..j] == calls[..j];
      } else {
        assert after[..j] == calls;
      }
    }
  }

  /** The call records what stopping its service took and returned, and that its
      context, derived from the outer one with the budget as timeout, was done on
      arrival exactly when the outer one was or the budget was nothing. */
  ghost predicate AsObserved(call: StopCall, elapsed: seq<nat>, errors: seq<Option<int>>, outerDone: bool)
  {
    && call.service < |elapsed| && call.service < |errors|
    && call.elapsed == elapsed[call.service] && call.error == errors[call.service]
    && (call.doneOnArrival <==> outerDone || call.budget == 0)
  }

  lemma Observed(call: StopCall, elapsed: seq<nat>, errors: seq<Option<int>>, outerDone: bool)
    requires call.service < |elapsed| && call.service < |errors|
    requires call.elapsed == elapsed[call.service] && call.error == errors[call.service]
    requires call.doneOnArrival <==> outerDone || call.budget == 0
    ensures AsObserved(call, elapsed, errors, outerDone)
  {
  }

  /** One more call, paced like the others. */
  lemma NextCall(timeout: nat, n: nat, calls: seq<StopCall>, call: StopCall)
    requires Paced(timeout, n, calls) && |calls| < n && call.service == n - 1 - |calls|
    requires call.budget == Share(Left(timeout, calls), n - |calls|)
    ensures Paced(timeout, n, calls + [call])
    ensures Left(timeout, calls + [call]) ==
              if Left(timeout, calls) >= call.elapsed then Left(timeout, calls) - call.elapsed else 0
    ensures Errors(calls + [call]) ==
              Errors(calls) + (if call.error.Some? then [(call.service, call.error.value)] else [])
  {
    Extend(timeout, calls, call);
    PacedExtend(timeout, n, calls, call);
  }

  /** The loop: services in reverse order, `remaining / (i + 1)` each, the time
      taken subtracted and clamped at zero. `elapsed[i]` and `errors[i]` are what
      stopping service `i` took and returned. */
  method ShutDown(timeout: nat, n: nat, elapsed: seq<nat>, errors: seq<Option<int>>, outerDone: bool)
    returns (calls: seq<StopCall>, errs: seq<(nat, int)>)
    requires |elapsed| == n && |errors| == n
    ensures |calls| == n && Paced(timeout, n, calls)
    ensures errs == Errors(calls)
    ensures forall j :: 0 <= j < n ==> AsObserved(calls[j], elapsed, errors, outerDone)
  {
    calls, errs := [], [];
    var remaining: int := timeout;
    assert Left(timeout, calls) == timeout && Errors(calls) == [] && Paced(timeout, n, calls);
    hide Left, Total, Errors, Paced, Share, AsObserved;
    var i := n;
    while i > 0
      invariant 0 <= i <= n && |calls| == n - i
      invariant remaining == Left(timeout, calls)
      invariant Paced(timeout, n, calls)
      invariant errs == Errors(calls)
      invariant forall j :: 0 <= j < |calls| ==> AsObserved(calls[j], elapsed, errors, outerDone)
    {
      i := i - 1;
      var budget := Share(remaining, i + 1);
      assert i + 1 == n - |calls|;
      var call := StopCall(i, budget, elapsed[i], outerDone || budget == 0, errors[i]);
      if errors[i].Some? {
        errs := errs + [(i, errors[i].value)];
      }
      remaining := remaining - elapsed[i];
      if remaining < 0 {
        remaining := 0;
      }
      NextCall(timeout, n, calls, call);
      assert AsObserved(call, elapsed, errors, outerDone) by { Observed(call, elapsed, errors, outerDone); }
      calls := calls + [call];
    }
  }

  // ------------------------------------------------------------------
  // Budgets of well-behaved services
  // ------------------------------------------------------------------

  /** Taking at most an equal share leaves at least that share for each of the rest. */
  lemma ShareOfRest(left: nat, m: nat, used: nat)
    requires m >= 2 && used <= left / m
    ensures used <= left && (left - used) / (m - 1) >= left / m
  {
    var share := left / m;
    var rest := left % m;
    assert left == share * m + rest;
    assert share * m == share * (m - 1) + share;
    QuotientAtLeast(left - used, m - 1, share);
  }

  lemma QuotientAtLeast(a: nat, d: nat, q: nat)
    requires d >= 1 && a >= q * d
    ensures a / d >= q
  {
    if a / d < q {
      var r := a % d;
      assert a == (a / d) * d + r;
      assert (a / d) + 1 <= q;
      assert ((a / d) + 1) * d == (a / d) * d + d;
      Scale((a / d) + 1, q, d);
    }
  }

  lemma Scale(a: nat, b: nat, d: nat)
    requires a <= b
    ensures a * d <= b * d
  {
    assert b * d == a * d + (b - a) * d;
  }

  lemma PacedPrefix(timeout: nat, n: nat, calls: seq<StopCall>, k: nat)
    requires Paced(timeout, n, calls) && WithinBudget(calls) && k < |calls|
    ensures Paced(timeout, n, calls[..k]) && WithinBudget(calls[..k])
    ensures calls[k].elapsed <= Share(Left(timeout, calls[..k]), n - k)
    ensures n >= |calls|
  {
    hide Left, Share;
    assert forall j :: 0 <= j < k ==> calls[..k][j] == calls[j] && calls[..k][..j] == calls[..j];
  }

  /** When every service keeps to its budget, the clock never runs over. */
  lemma {:induction false} InTime(timeout: nat, n: nat, calls: seq<StopCall>)
    requires Paced(timeout, n, calls) && WithinBudget(calls)
    ensures Total(calls) <= timeout
  {
    if calls != [] {
      var k := |calls| - 1;
      PacedPrefix(timeout, n, calls, k);
      hide Paced, WithinBudget, Share;
      InTime(timeout, n, calls[..k]);
      ShareAtMost(Left(timeout, calls[..k]), n - k);
    }
  }

  lemma ShareAtMost(left: nat, m: nat)
    requires m >= 1
    ensures Share(left, m) <= left
  {
    var q := left / m;
    assert left == q * m + left % m;
    assert q * m == q + q * (m - 1);
  }

  lemma NextShare(timeout: nat, n: nat, calls: seq<StopCall>, j: nat)
    requires Paced(timeout, n, calls) && WithinBudget(calls) && j + 1 < |calls|
    ensures calls[j].budget <= calls[j + 1].budget
  {
    var before := calls[..j];
    assert calls[..j + 1] == before + [calls[j]];
    Extend(timeout, before, calls[j]);
    ShareOfRest(Left(timeout, before), n - j, calls[j].elapsed);
  }

  /** If every service stays within its budget, budgets never shrink along the
      shutdown order. */
  lemma {:induction false} BudgetsNeverShrink(timeout: nat, n: nat, calls: seq<StopCall>, i: nat, j: nat)
    requires Paced(timeout, n, calls) && WithinBudget(calls) && i <= j < |calls|
    ensures calls[i].budget <= calls[j].budget
    decreases j
  {
    if i < j {
      BudgetsNeverShrink(timeout, n, calls, i, j - 1);
      NextShare(timeout, n, calls, j - 1);
    }
  }

  lemma FirstShare(timeout: nat, n: nat, calls: seq<StopCall>)
    requires n >= 1 && Paced(timeout, n, calls) && calls != []
    ensures calls[0].budget == timeout / n
  {
    assert calls[..0] == [];
    assert Left(timeout, []) == timeout;
  }

  /** A service within its budget never costs a later one its fair share of the
      whole timeout, and together they finish in time. */
  lemma FairShares(timeout: nat, n: nat, calls: seq<StopCall>)
    requires n >= 1 && Paced(timeout, n, calls) && WithinBudget(calls)
    ensures forall j :: 0 <= j < |calls| ==> calls[j].budget >= timeout / n
    ensures Total(calls) <= timeout
    ensures timeout >= n ==> forall j :: 0 <= j < |calls| ==> calls[j].budget > 0
  {
    hide Paced, WithinBudget, Total;
    InTime(timeout, n, calls);
    forall j | 0 <= j < |calls|
      ensures calls[j].budget >= timeout / n
    {
      FirstShare(timeout, n, calls);
      BudgetsNeverShrink(timeout, n, calls, 0, j);
    }
    if timeout >= n {
      QuotientAtLeast(timeout, n, 1);
    }
  }
}
