/** The fan-out and fan-in inside one health evaluation: a goroutine per check,
    a buffered error channel of that capacity, a wait group. */
module FanIn {

  /** A registered check. */
  datatype Check = Check(name: int, timeout: int)

  /** The snapshot being evaluated, the checks still running, those that failed,
      and the channel: the failing checks in the order they sent their errors. */
  datatype Gather = Gather(checks: seq<Check>, pending: set<nat>, failed: set<nat>, channel: seq<nat>)

  function Indices(n: nat): (r: set<nat>)
    ensures forall i :: i in r <==> 0 <= i < n
    ensures |r| == n
  {
    if n == 0 then {} else Indices(n - 1) + {n - 1}
  }

  function Launch(checks: seq<Check>): Gather
  {
    Gather(checks, Indices(|checks|), {}, [])
  }

  /** Check `c` is done. A failing one sends its error first, and may do so only
      while the channel has room. */
  predicate CanComplete(g: Gather, c: nat, fails: bool)
  {
    c in g.pending && (fails ==> |g.channel| < |g.checks|)
  }

  function Complete(g: Gather, c: nat, fails: bool): Gather
  {
    if fails then g.(pending := g.pending - {c}, failed := g.failed + {c}, channel := g.channel + [c])
    else g.(pending := g.pending - {c})
  }

  /** The channel holds each failed check once, and there is room for the rest. */
  ghost predicate GatherOk(g: Gather)
  {
    && g.pending !! g.failed
    && g.pending + g.failed <= Indices(|g.checks|)
    && multiset(g.channel) == multiset(g.failed)
  }

  lemma GatheredAll(g: Gather)
    requires GatherOk(g)
    ensures multiset(g.channel) == multiset(g.failed)
  {
  }

  lemma SubsetSize(a: set<nat>, b: set<nat>)
    requires a <= b
    ensures |a| <= |b|
  {
    assert b == a + (b - a);
  }

  lemma LaunchOk(checks: seq<Check>)
    ensures GatherOk(Launch(checks))
  {
  }

  lemma CompleteOk(g: Gather, c: nat, fails: bool)
    requires GatherOk(g) && CanComplete(g, c, fails)
    ensures GatherOk(Complete(g, c, fails))
    ensures Complete(g, c, fails).checks == g.checks
    ensures Complete(g, c, fails).pending == g.pending - {c}
    ensures Complete(g, c, fails).failed == g.failed + (if fails then {c} else {})
  {
    if fails {
      assert multiset(g.failed + {c}) == multiset(g.failed) + multiset{c};
    }
  }

  /** Whatever the number of checks and the order they finish in, no sender ever
      blocks on the channel. */
  lemma NoSenderBlocks(g: Gather, c: nat, fails: bool)
    requires GatherOk(g) && c in g.pending
    ensures CanComplete(g, c, fails)
  {
    assert |multiset(g.channel)| == |g.channel|;
    assert |multiset(g.failed)| == |g.failed|;
    assert |g.pending + g.failed| == |g.pending| + |g.failed|;
    SubsetSize(g.pending + g.failed, Indices(|g.checks|));
    SubsetSize({c}, g.pending);
  }

  /** The order in which checks finish, and whether each failed. */
  type Order = seq<(nat, bool)>

  /** The checks that failed among the first `k` to finish. */
  ghost function Failing(order: Order, k: nat): (r: set<nat>)
    requires k <= |order|
  {
    set i | 0 <= i < k && order[i].1 :: order[i].0
  }

  lemma FailingStep(order: Order, k: nat)
    requires k < |order|
    ensures Failing(order, k + 1) == Failing(order, k) + (if order[k].1 then {order[k].0} else {})
  {
  }

  lemma NoneFailing(errs: seq<nat>, order: Order)
    requires multiset(errs) == multiset(Failing(order, |order|))
    ensures errs == [] <==> forall i :: 0 <= i < |order| ==> !order[i].1
  {
    var failing := Failing(order, |order|);
    assert forall i :: 0 <= i < |order| && order[i].1 ==> order[i].0 in failing;
    if errs == [] {
      assert |multiset(failing)| == |failing|;
    } else {
      assert errs[0] in multiset(errs);
      assert errs[0] in failing;
    }
  }

  /** A run of the whole fan-in, the checks finishing in the given order: the
      joined errors are a permutation of exactly the failing checks, and there
      are none exactly when no check failed. */
  method Collect(checks: seq<Check>, order: Order) returns (errs: seq<nat>)
    requires |order| == |checks|
    requires forall i, j :: 0 <= i < j < |order| ==> order[i].0 != order[j].0
    requires forall i :: 0 <= i < |order| ==> order[i].0 < |checks|
    ensures multiset(errs) == multiset(Failing(order, |order|))
    ensures errs == [] <==> forall i :: 0 <= i < |order| ==> !order[i].1
  {
    var g := Launch(checks);
    LaunchOk(checks);
    assert forall i :: 0 <= i < |order| ==> order[i].0 in g.pending;
    assert Failing(order, 0) == {};
    hide GatherOk, Failing, Indices, Complete, CanComplete;
    for k := 0 to |order|
      invariant GatherOk(g)
      invariant forall i :: k <= i < |order| ==> order[i].0 in g.pending
      invariant g.failed == Failing(order, k)
    {
      var (c, fails) := order[k];
      NoSenderBlocks(g, c, fails);
      CompleteOk(g, c, fails);
      FailingStep(order, k);
      g := Complete(g, c, fails);
    }
    GatheredAll(g);
    errs := g.channel;
    NoneFailing(errs, order);
  }
}
