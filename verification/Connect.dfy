/** The Connect closures of `PostgresDB` and `RedisCache`: open, ping and close per
    attempt under `retry.Do`, and the stop closure that closes what was kept. */
module Connect {
  import opened Common
  import opened Retry

  type Handle = nat

  /** How one attempt goes. Creating a Redis client cannot fail; a pool can. */
  datatype Attempt = CreateFails(code: int) | PingFails(code: int) | Works

  /** What the attempts work on: the handles open now, the next one, and the
      captured variable the closure assigns on success. */
  datatype Pool = Pool(open: set<Handle>, next: Handle, captured: Option<Handle>)

  /** What an attempt does to them, and its error. */
  function Tried(p: Pool, x: Attempt): (Pool, Option<int>)
  {
    match x
    case CreateFails(code) => (p, Some(code))
    case PingFails(code) => (p.(open := (p.open + {p.next}) - {p.next}, next := p.next + 1), Some(code))
    case Works => (p.(open := p.open + {p.next}, next := p.next + 1, captured := Some(p.next)), None)
  }

  /** The function `retry.Do` is given. */
  function TryOnce(script: nat -> Attempt): ((Pool, nat) -> (Pool, Option<int>))
  {
    (p: Pool, k: nat) => Tried(p, script(k))
  }

  ghost predicate PoolOk(p: Pool)
  {
    forall h :: h in p.open ==> h < p.next
  }

  /** Attempts that failed left nothing open. */
  lemma {:induction false} FailuresLeaveNothing(script: nat -> Attempt, p: Pool, k: nat)
    requires PoolOk(p)
    requires forall j :: 0 <= j < k ==> ErrorOf(TryOnce(script), p, j).Some?
    ensures var q := After(TryOnce(script), p, k);
            q.open == p.open && q.next >= p.next && q.captured == p.captured
  {
    if k > 0 {
      FailuresLeaveNothing(script, p, k - 1);
      var q := After(TryOnce(script), p, k - 1);
      assert ErrorOf(TryOnce(script), p, k - 1).Some?;
      assert TryOnce(script)(q, k - 1) == Tried(q, script(k - 1));
      assert q.next !in q.open;
    }
  }

  lemma SuccessLeavesOne(script: nat -> Attempt, p: Pool, k: nat)
    requires PoolOk(p)
    requires forall j :: 0 <= j < k ==> ErrorOf(TryOnce(script), p, j).Some?
    requires ErrorOf(TryOnce(script), p, k).None?
    ensures var q := After(TryOnce(script), p, k + 1);
            && q.captured.Some? && q.captured.value !in p.open
            && q.open == p.open + {q.captured.value} && q.next > q.captured.value >= p.next
  {
    FailuresLeaveNothing(script, p, k);
    var q := After(TryOnce(script), p, k);
    assert TryOnce(script)(q, k) == Tried(q, script(k));
  }

  /** Attempt `k` is made, because all before it failed and the context was not
      seen done, and it works. */
  ghost predicate Reaches(script: nat -> Attempt, world: World, k: nat)
  {
    && script(k).Works? && !world.doneBefore(k)
    && forall j :: 0 <= j < k ==> !script(j).Works? && !world.doneBefore(j) && !world.doneDuring(j)
  }

  lemma ReachesLast(script: nat -> Attempt, p: Pool, world: World, k: nat)
    requires ErrorOf(TryOnce(script), p, k).None? && !world.doneBefore(k)
    requires forall j :: 0 <= j < k ==>
               ErrorOf(TryOnce(script), p, j).Some? && !world.doneBefore(j) && !world.doneDuring(j)
    ensures Reaches(script, world, k)
  {
    hide After;
    forall j | 0 <= j < k
      ensures !script(j).Works?
    {
      assert ErrorOf(TryOnce(script), p, j).Some?;
    }
  }

  /** All attempts made have failed, and they were all there are or the context is done. */
  lemma ReachesNone(script: nat -> Attempt, p: Pool, world: World, attempts: nat, n: nat)
    requires forall j :: 0 <= j < n ==> ErrorOf(TryOnce(script), p, j).Some?
    requires n == attempts || world.doneBefore(n) || (n >= 1 && world.doneDuring(n - 1))
    ensures forall k :: 0 <= k < attempts ==> !Reaches(script, world, k)
  {
    hide After;
    forall k | 0 <= k < attempts
      ensures !Reaches(script, world, k)
    {
      if k < n {
        assert ErrorOf(TryOnce(script), p, k).Some?;
      }
    }
  }

  /** A component that owns a connection. */
  class Component {
    var open: set<Handle>
    var next: Handle
    var handle: Option<Handle>

    ghost predicate Valid()
      reads this
    {
      forall h :: h in open ==> h < next
    }

    constructor ()
      ensures Valid() && open == {} && handle.None?
    {
      open, next, handle := {}, 0, None;
    }

    /** Connect with the configured number of attempts, at least one. On success
        exactly one more connection is open, a new one, and it is the one stored;
        on failure no more are open than before. It succeeds exactly when one of
        those attempts works, with all before it failing and the context not done. */
    method Connect(retryAttempts: int, backoff: int, script: nat -> Attempt, world: World) returns (ok: bool)
      requires Valid()
      modifies this
      ensures Valid()
      ensures ok ==> handle.Some? && handle.value !in old(open) && open == old(open) + {handle.value}
      ensures !ok ==> open == old(open) && handle == old(handle)
      ensures ok <==> exists k :: 0 <= k && (k == 0 || k < retryAttempts) && Reaches(script, world, k)
    {
      hide After, ErrorOf, TryOnce, Sleep, Reaches;
      var attempts := retryAttempts;
      if attempts <= 0 {
        attempts := 1;
      }
      var p := Pool(open, next, None);
      var r, q, n, sleeps := Do(attempts, backoff, TryOnce(script), p, world);
      if r.Success? {
        SuccessLeavesOne(script, p, n - 1);
        ReachesLast(script, p, world, n - 1);
      } else {
        FailuresLeaveNothing(script, p, n);
        ReachesNone(script, p, world, attempts, n);
      }
      open, next := q.open, q.next;
      ok := r.Success?;
      if ok {
        handle := q.captured;
      }
    }

    /** The stop closure. */
    method Close()
      requires Valid() && handle.Some?
      modifies this`open
      ensures Valid() && open == old(open) - {handle.value}
    {
      open := open - {handle.value};
    }
  }

  /** Connecting and then running the stop closure leaves open what was open. */
  method ConnectThenClose(c: Component, retryAttempts: int, backoff: int, script: nat -> Attempt, world: World)
    requires c.Valid()
    modifies c
    ensures c.Valid() && c.open == old(c.open)
  {
    var ok := c.Connect(retryAttempts, backoff, script, world);
    if ok {
      c.Close();
    }
  }
}
