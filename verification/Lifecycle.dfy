/** `core.Lifecycle` under any number of concurrent `Start` and `Stop` calls, and
    the readiness gate of `TxManager` over a component built on it. */
module Lifecycle {
  import opened Common

  /** Resources are numbered in the order their `Connect` succeeded. */
  type Res = nat

  /** The fields `mu` guards, and the readiness channel. */
  datatype Cell = Cell(stopped: bool, stopFunc: Option<Res>, ready: bool)

  const FRESH := Cell(false, None, false)

  /** The critical section of `Start`: refuse when already stopped, else keep the closure. */
  function Install(c: Cell, stop: Option<Res>): Cell
  {
    if c.stopped then c else c.(stopFunc := stop)
  }

  /** The closure a `Stop` that holds the lock has to run. */
  function ToRun(c: Cell): Option<Res>
  {
    if c.stopped then None else c.stopFunc
  }

  // ------------------------------------------------------------------
  // Interleaving
  // ------------------------------------------------------------------

  datatype StartResult = ConnectError | StoppedEarly(stop: Option<Res>) | Cancelled(stop: Option<Res>)

  /** Where a call is. The first eight belong to `Start`, the next four to
      `Stop`, the last four to a query or `WithTx` at the readiness gate and then
      at the nil-pool guard of `PostgresDB`. */
  datatype Pc =
    | Connecting
    | Connected(stop: Option<Res>)
    | Locked(stop: Option<Res>)
    | HalfStarted(stop: Option<Res>)
    | Installed(stop: Option<Res>)
    | Waiting(stop: Option<Res>)
    | Started(result: StartResult)
    | Panicked
    | StopCalled
    | StopLocked
    | Releasing(res: Res)
    | StopReturned
    | AtGate
    | ThroughGate
    | GateRefused
    | Operated(initialized: bool)

  /** A resource: whether it came with a stop closure, and how often that ran. */
  datatype Conn = Conn(closure: bool, runs: nat)

  /** `conns` are the resources acquired so far and `pool` is the handle the last
      successful `Connect` stored. */
  datatype State = State(cell: Cell, mu: Option<nat>, conns: seq<Conn>, pool: Option<Res>, pcs: seq<Pc>)

  /** What the environment decides: the outcome of `Connect`, or which arm of a
      `select` fires. */
  datatype Choice = Proceed | ConnectOk(closure: bool) | ConnectFails | ContextDone

  predicate Initial(s: State)
  {
    && s.cell == FRESH && s.mu.None? && s.conns == [] && s.pool.None?
    && forall i :: 0 <= i < |s.pcs| ==> s.pcs[i].Connecting? || s.pcs[i].StopCalled? || s.pcs[i].AtGate?
  }

  function At(s: State, i: nat, pc: Pc): State
    requires i < |s.pcs|
  {
    s.(pcs := s.pcs[i := pc])
  }

  /** `Start` up to leaving its critical section. */
  function Acquire(s: State, i: nat, c: Choice): Option<State>
    requires i < |s.pcs|
  {
    match s.pcs[i]
    case Connecting => (
      match c
      case ConnectOk(closure) =>
        var r := |s.conns|;
        Some(At(s.(conns := s.conns + [Conn(closure, 0)], pool := Some(r)), i,
                Connected(if closure then Some(r) else None)))
      case ConnectFails => Some(At(s, i, Started(ConnectError)))
      case _ => None)
    case Connected(stop) => if s.mu.None? then Some(At(s.(mu := Some(i)), i, Locked(stop))) else None
    case Locked(stop) =>
      Some(At(s.(mu := None, cell := Install(s.cell, stop)), i,
              if s.cell.stopped then HalfStarted(stop) else Installed(stop)))
    case _ => None
  }

  /** `Start` after its critical section. */
  function Settle(s: State, i: nat, c: Choice): Option<State>
    requires i < |s.pcs|
  {
    match s.pcs[i]
    case HalfStarted(stop) => Some(At(s.(conns := Run(s.conns, stop)), i, Started(StoppedEarly(stop))))
    case Installed(stop) =>
      if s.cell.ready then Some(At(s, i, Panicked))
      else Some(At(s.(cell := s.cell.(ready := true)), i, Waiting(stop)))
    case Waiting(stop) => if c.ContextDone? then Some(At(s, i, Started(Cancelled(stop)))) else None
    case _ => None
  }

  /** `Stop`, which runs the closure before it gives the lock back. */
  function Halt(s: State, i: nat): Option<State>
    requires i < |s.pcs|
  {
    match s.pcs[i]
    case StopCalled => if s.mu.None? then Some(At(s.(mu := Some(i)), i, StopLocked)) else None
    case StopLocked =>
      var run := ToRun(s.cell);
      var t := s.(cell := s.cell.(stopped := true));
      if run.Some? then Some(At(t, i, Releasing(run.value))) else Some(At(t.(mu := None), i, StopReturned))
    case Releasing(r) => Some(At(s.(conns := Run(s.conns, Some(r)), mu := None), i, StopReturned))
    case _ => None
  }

  /** `core.WaitReady` at the gate of `readyQuerier` or of an outermost `WithTx`,
      then the operation itself, which first checks for a pool. */
  function Gate(s: State, i: nat, c: Choice): Option<State>
    requires i < |s.pcs|
  {
    if s.pcs[i].ThroughGate? then Some(At(s, i, Operated(s.pool.Some?)))
    else if !s.pcs[i].AtGate? then None
    else if c.ContextDone? then Some(At(s, i, GateRefused))
    else if s.cell.ready then Some(At(s, i, ThroughGate))
    else None
  }

  /** Does the environment have this to decide where the call is? */
  predicate Decides(pc: Pc, c: Choice)
  {
    match pc
    case Connecting => c.ConnectOk? || c.ConnectFails?
    case Waiting(_) => c.ContextDone?
    case AtGate => c.ContextDone? || c.Proceed?
    case _ => c.Proceed?
  }

  /** One atomic step of call `i`; None when it cannot be taken. */
  function Next(s: State, i: nat, c: Choice): Option<State>
    requires i < |s.pcs|
  {
    var pc := s.pcs[i];
    if !Decides(pc, c) then None
    else if pc.Connecting? || pc.Connected? || pc.Locked? then Acquire(s, i, c)
    else if pc.HalfStarted? || pc.Installed? || pc.Waiting? then Settle(s, i, c)
    else if pc.StopCalled? || pc.StopLocked? || pc.Releasing? then Halt(s, i)
    else Gate(s, i, c)
  }

  /** Calling a stop closure, when there is one. */
  function Run(conns: seq<Conn>, stop: Option<Res>): (r: seq<Conn>)
    ensures |r| == |conns|
  {
    if stop.Some? && stop.value < |conns|
    then conns[stop.value := conns[stop.value].(runs := conns[stop.value].runs + 1)] else conns
  }

  /** A schedule picks, step by step, which call moves and what the environment decides. */
  type Schedule = seq<(nat, Choice)>

  function Exec(s: State, schedule: Schedule): Option<State>
    decreases schedule
  {
    if schedule == [] then Some(s) else
      var (i, c) := schedule[0];
      if i >= |s.pcs| then None else
        var t := Next(s, i, c);
        if t.None? then None else Exec(t.value, schedule[1..])
  }

  // ------------------------------------------------------------------
  // Invariant
  // ------------------------------------------------------------------

  /** The closure a `Start` call is responsible for and has not handed over. */
  function Held(pc: Pc): Option<Res>
  {
    match pc
    case Connected(stop) => stop
    case Locked(stop) => stop
    case HalfStarted(stop) => stop
    case _ => None
  }

  predicate HoldsLock(pc: Pc)
  {
    pc.Locked? || pc.StopLocked? || pc.Releasing?
  }

  predicate HasConnected(pc: Pc)
  {
    pc.Connected? || pc.Locked? || pc.HalfStarted? || pc.Installed? || pc.Waiting?
  }

  /** Facts about one call. */
  predicate CallOk(s: State, i: nat)
    requires i < |s.pcs|
  {
    var pc := s.pcs[i];
    && (HoldsLock(pc) <==> s.mu == Some(i))
    && (Held(pc).Some? ==>
          && Held(pc).value < |s.conns|
          && s.conns[Held(pc).value].runs == 0
          && s.cell.stopFunc != Held(pc))
    && (pc.HalfStarted? || pc.StopReturned? || pc.Releasing? ==> s.cell.stopped)
    && (pc.Releasing? ==> s.cell.stopFunc == Some(pc.res) && pc.res < |s.conns| && s.conns[pc.res].runs == 0)
    && (HasConnected(pc) || pc.ThroughGate? ==> s.pool.Some?)
    && (pc.ThroughGate? || pc.Operated? ==> s.cell.ready)
    && (pc.Operated? ==> pc.initialized)
  }

  /** Facts about the shared fields. */
  predicate SharedOk(s: State)
  {
    && (s.mu.Some? ==> s.mu.value < |s.pcs|)
    && (s.cell.stopFunc.Some? ==> s.cell.stopFunc.value < |s.conns|)
    && (s.cell.ready ==> s.pool.Some?)
    && (forall r :: 0 <= r < |s.conns| ==> s.conns[r].runs <= if s.cell.stopped then 1 else 0)
  }

  predicate Inv(s: State)
  {
    && SharedOk(s)
    && (forall i :: 0 <= i < |s.pcs| ==> CallOk(s, i))
    && (forall i, j :: 0 <= i < |s.pcs| && 0 <= j < |s.pcs| && i != j ==> Apart(s, i, j))
    && StopPending(s)
  }

  /** No two calls are responsible for the same closure. */
  predicate Apart(s: State, i: nat, j: nat)
    requires i < |s.pcs| && j < |s.pcs|
  {
    Held(s.pcs[i]).Some? ==> Held(s.pcs[i]) != Held(s.pcs[j])
  }

  /** After the first `Stop` took the lock, the installed closure has run, or the
      lock is still held by the call running it, and no `Stop` has returned. */
  predicate StopPending(s: State)
  {
    s.cell.stopped && s.cell.stopFunc.Some? ==>
      || (s.cell.stopFunc.value < |s.conns| && s.conns[s.cell.stopFunc.value].runs == 1)
      || (exists i :: 0 <= i < |s.pcs| && s.pcs[i] == Releasing(s.cell.stopFunc.value)
                      && forall j :: 0 <= j < |s.pcs| ==> !s.pcs[j].StopReturned?)
  }

  /** What a step of call `i` from `s` to `t` keeps. */
  predicate Kept(s: State, t: State, i: nat)
    requires i < |s.pcs|
  {
    |t.pcs| == |s.pcs| && t.pcs == s.pcs[i := t.pcs[i]] && SharedOk(t) && CallOk(t, i)
  }

  /** What it keeps of another call `j`. */
  predicate KeptFor(s: State, t: State, i: nat, j: nat)
    requires i < |s.pcs| && j < |s.pcs| && |t.pcs| == |s.pcs|
  {
    CallOk(t, j) && Apart(t, i, j) && Apart(t, j, i)
  }

  lemma AcquireKeepsShared(s: State, i: nat, c: Choice)
    requires i < |s.pcs| && Acquire(s, i, c).Some? && SharedOk(s) && CallOk(s, i)
    ensures var t := Acquire(s, i, c).value;
            SharedOk(t) && |t.pcs| == |s.pcs| && t.pcs == s.pcs[i := t.pcs[i]]
  {
  }

  lemma AcquireKeeps(s: State, i: nat, c: Choice)
    requires i < |s.pcs| && Acquire(s, i, c).Some? && SharedOk(s) && CallOk(s, i)
    ensures Kept(s, Acquire(s, i, c).value, i)
  {
    AcquireKeepsShared(s, i, c);
    assert CallOk(Acquire(s, i, c).value, i);
  }

  lemma AcquireKeepsOther(s: State, i: nat, c: Choice, j: nat)
    requires i < |s.pcs| && j < |s.pcs| && i != j && Acquire(s, i, c).Some?
    requires SharedOk(s) && CallOk(s, i) && KeptFor(s, s, i, j)
    ensures KeptFor(s, Acquire(s, i, c).value, i, j)
  {
  }

  lemma SettleKeeps(s: State, i: nat, c: Choice)
    requires i < |s.pcs| && Settle(s, i, c).Some? && SharedOk(s) && CallOk(s, i)
    ensures Kept(s, Settle(s, i, c).value, i)
  {
  }

  lemma SettleKeepsOther(s: State, i: nat, c: Choice, j: nat)
    requires i < |s.pcs| && j < |s.pcs| && i != j && Settle(s, i, c).Some?
    requires SharedOk(s) && CallOk(s, i) && KeptFor(s, s, i, j)
    ensures KeptFor(s, Settle(s, i, c).value, i, j)
  {
    if s.pcs[i].HalfStarted? {
      RunsOne(s.conns, s.pcs[i].stop);
    }
    hide Run;
  }

  lemma RunsOne(conns: seq<Conn>, stop: Option<Res>)
    ensures forall r :: 0 <= r < |conns| && stop != Some(r) ==> Run(conns, stop)[r] == conns[r]
  {
  }

  lemma HaltKeeps(s: State, i: nat)
    requires i < |s.pcs| && Halt(s, i).Some? && SharedOk(s) && CallOk(s, i)
    ensures Kept(s, Halt(s, i).value, i)
  {
  }

  lemma HaltKeepsOther(s: State, i: nat, j: nat)
    requires i < |s.pcs| && j < |s.pcs| && i != j && Halt(s, i).Some?
    requires SharedOk(s) && CallOk(s, i) && KeptFor(s, s, i, j)
    ensures KeptFor(s, Halt(s, i).value, i, j)
  {
  }

  lemma GateKeeps(s: State, i: nat, c: Choice)
    requires i < |s.pcs| && Gate(s, i, c).Some? && SharedOk(s) && CallOk(s, i)
    ensures Kept(s, Gate(s, i, c).value, i)
  {
  }

  lemma GateKeepsOther(s: State, i: nat, c: Choice, j: nat)
    requires i < |s.pcs| && j < |s.pcs| && i != j && Gate(s, i, c).Some?
    requires SharedOk(s) && CallOk(s, i) && KeptFor(s, s, i, j)
    ensures KeptFor(s, Gate(s, i, c).value, i, j)
  {
  }

  lemma StepKeeps(s: State, i: nat, c: Choice)
    requires i < |s.pcs| && Next(s, i, c).Some? && SharedOk(s) && CallOk(s, i)
    ensures Kept(s, Next(s, i, c).value, i)
  {
    hide Acquire, Settle, Halt, Gate, Kept, SharedOk, CallOk;
    var pc := s.pcs[i];
    if pc.Connecting? || pc.Connected? || pc.Locked? {
      AcquireKeeps(s, i, c);
    } else if pc.HalfStarted? || pc.Installed? || pc.Waiting? {
      SettleKeeps(s, i, c);
    } else if pc.StopCalled? || pc.StopLocked? || pc.Releasing? {
      HaltKeeps(s, i);
    } else {
      GateKeeps(s, i, c);
    }
  }

  lemma StepKeepsOther(s: State, i: nat, c: Choice, j: nat)
    requires i < |s.pcs| && j < |s.pcs| && i != j && Next(s, i, c).Some? && |Next(s, i, c).value.pcs| == |s.pcs|
    requires SharedOk(s) && CallOk(s, i) && KeptFor(s, s, i, j)
    ensures KeptFor(s, Next(s, i, c).value, i, j)
  {
    hide Acquire, Settle, Halt, Gate, KeptFor, SharedOk, CallOk;
    var pc := s.pcs[i];
    if pc.Connecting? || pc.Connected? || pc.Locked? {
      AcquireKeepsOther(s, i, c, j);
    } else if pc.HalfStarted? || pc.Installed? || pc.Waiting? {
      SettleKeepsOther(s, i, c, j);
    } else if pc.StopCalled? || pc.StopLocked? || pc.Releasing? {
      HaltKeepsOther(s, i, j);
    } else {
      GateKeepsOther(s, i, c, j);
    }
  }

  /** What a step from `s` to `t` can do to the stop protocol. */
  predicate StopMoved(s: State, t: State, i: nat)
    requires i < |s.pcs|
  {
    && |t.pcs| == |s.pcs| && |t.conns| >= |s.conns|
    && (s.cell.stopped ==> t.cell.stopped && t.cell.stopFunc == s.cell.stopFunc)
    && (t.cell.stopped && !s.cell.stopped ==>
          && t.cell.stopFunc == s.cell.stopFunc
          && (s.cell.stopFunc.Some? ==> t.pcs[i] == Releasing(s.cell.stopFunc.value)))
    && (t.pcs[i].StopReturned? ==> HoldsLock(s.pcs[i]))
    && (forall r :: 0 <= r < |s.conns| ==>
          s.conns[r].runs + (if s.pcs[i] == Releasing(r) then 1 else 0) <= t.conns[r].runs)
  }

  lemma StartStopMoved(s: State, i: nat, c: Choice)
    requires i < |s.pcs|
    ensures Acquire(s, i, c).Some? ==> StopMoved(s, Acquire(s, i, c).value, i)
    ensures Settle(s, i, c).Some? ==> StopMoved(s, Settle(s, i, c).value, i)
  {
  }

  lemma HaltStopMoved(s: State, i: nat)
    requires i < |s.pcs|
    ensures Halt(s, i).Some? ==> StopMoved(s, Halt(s, i).value, i)
  {
  }

  lemma GateStopMoved(s: State, i: nat, c: Choice)
    requires i < |s.pcs|
    ensures Gate(s, i, c).Some? ==> StopMoved(s, Gate(s, i, c).value, i)
  {
  }

  lemma StopProtocol(s: State, i: nat, c: Choice)
    requires i < |s.pcs| && Next(s, i, c).Some?
    ensures StopMoved(s, Next(s, i, c).value, i)
  {
    hide Acquire, Settle, Halt, Gate, StopMoved;
    StartStopMoved(s, i, c);
    HaltStopMoved(s, i);
    GateStopMoved(s, i, c);
  }

  lemma StepKeepsStopPending(s: State, i: nat, c: Choice)
    requires i < |s.pcs| && Next(s, i, c).Some? && SharedOk(s) && StopPending(s)
    requires forall j :: 0 <= j < |s.pcs| ==> CallOk(s, j)
    requires Kept(s, Next(s, i, c).value, i)
    ensures StopPending(Next(s, i, c).value)
  {
    var t := Next(s, i, c).value;
    StopProtocol(s, i, c);
    hide Next;
    assert CallOk(s, i);
    if t.cell.stopped && t.cell.stopFunc.Some? {
      var r := t.cell.stopFunc.value;
      if !s.cell.stopped {
        forall j | 0 <= j < |t.pcs|
          ensures !t.pcs[j].StopReturned?
        {
          assert CallOk(s, j);
        }
        assert t.pcs[i] == Releasing(r);
      } else if t.conns[r].runs == 0 {
        var k :| 0 <= k < |s.pcs| && s.pcs[k] == Releasing(r)
                 && forall j :: 0 <= j < |s.pcs| ==> !s.pcs[j].StopReturned?;
        assert CallOk(s, k);
        assert t.pcs[k] == Releasing(r);
      }
    }
  }

  lemma StepKeepsInv(s: State, i: nat, c: Choice)
    requires Inv(s) && i < |s.pcs| && Next(s, i, c).Some?
    ensures Inv(Next(s, i, c).value)
  {
    var t := Next(s, i, c).value;
    assert CallOk(s, i);
    StepKeeps(s, i, c);
    StepKeepsStopPending(s, i, c);
    hide Next, CallOk, SharedOk, StopPending, Held;
    forall j | 0 <= j < |s.pcs| && j != i
      ensures KeptFor(s, t, i, j)
    {
      assert CallOk(s, j) && Apart(s, i, j) && Apart(s, j, i);
      StepKeepsOther(s, i, c, j);
    }
    forall j, k | 0 <= j < |t.pcs| && 0 <= k < |t.pcs| && j != k
      ensures Apart(t, j, k)
    {
      if j == i {
        assert KeptFor(s, t, i, k);
      } else if k == i {
        assert KeptFor(s, t, i, j);
      } else {
        assert Apart(s, j, k);
      }
    }
    forall j | 0 <= j < |t.pcs|
      ensures CallOk(t, j)
    {
      assert j != i ==> KeptFor(s, t, i, j);
    }
  }

  lemma {:induction false} RunKeepsInv(s: State, schedule: Schedule)
    requires Inv(s) && Exec(s, schedule).Some?
    ensures Inv(Exec(s, schedule).value)
    decreases schedule
  {
    hide Inv, Next;
    if schedule != [] {
      var (i, c) := schedule[0];
      StepKeepsInv(s, i, c);
      RunKeepsInv(Next(s, i, c).value, schedule[1..]);
    }
  }

  lemma InitialInv(s: State)
    requires Initial(s)
    ensures Inv(s)
  {
  }

  // ------------------------------------------------------------------
  // Theorems over every schedule
  // ------------------------------------------------------------------

  /** However many `Start` and `Stop` calls race, no stop closure runs twice. */
  lemma NoClosureRunsTwice(s: State, schedule: Schedule)
    requires Initial(s) && Exec(s, schedule).Some?
    ensures forall r :: 0 <= r < |Exec(s, schedule).value.conns| ==> Exec(s, schedule).value.conns[r].runs <= 1
  {
    InitialInv(s);
    RunKeepsInv(s, schedule);
    hide Exec;
  }

  /** The gate lets an operation through only once the handle is stored: no
      operation that went through it ends in a "not initialized" error. */
  lemma ThroughGateFindsPool(s: State, schedule: Schedule, i: nat)
    requires Initial(s) && Exec(s, schedule).Some? && i < |Exec(s, schedule).value.pcs|
    ensures var t := Exec(s, schedule).value;
            && t.pcs[i] != Operated(false)
            && (t.pcs[i].ThroughGate? ==> t.pool.Some?)
  {
    InitialInv(s);
    RunKeepsInv(s, schedule);
    hide Exec;
    assert CallOk(Exec(s, schedule).value, i);
  }

  predicate IsStart(pc: Pc)
  {
    pc.Connecting? || HasConnected(pc) || pc.Started? || pc.Panicked?
  }

  /** Call `a` is the only `Start`. */
  predicate OnlyStart(s: State, a: nat)
  {
    a < |s.pcs| && forall i :: 0 <= i < |s.pcs| ==> (IsStart(s.pcs[i]) <==> i == a)
  }

  /** Where the only resource is, following the only `Start`. */
  predicate SingleOk(s: State, a: nat)
  {
    && OnlyStart(s, a)
    && match s.pcs[a] {
       case Connecting => s.conns == [] && !s.cell.ready && s.cell.stopFunc.None?
       case Started(ConnectError) => s.conns == [] && !s.cell.ready && s.cell.stopFunc.None?
       case Connected(stop) => One(s, stop) && !s.cell.ready && s.cell.stopFunc.None?
       case Locked(stop) => One(s, stop) && !s.cell.ready && s.cell.stopFunc.None?
       case HalfStarted(stop) => One(s, stop) && !s.cell.ready && s.cell.stopFunc.None?
       case Started(StoppedEarly(stop)) => One(s, stop) && !s.cell.ready && (stop.Some? ==> s.conns[0].runs == 1)
       case Installed(stop) => One(s, stop) && !s.cell.ready && s.cell.stopFunc == stop
       case Waiting(stop) => One(s, stop) && s.cell.ready && s.cell.stopFunc == stop
       case Started(Cancelled(stop)) => One(s, stop) && s.cell.ready && s.cell.stopFunc == stop
       case _ => false
    }
  }

  predicate One(s: State, stop: Option<Res>)
  {
    && |s.conns| == 1
    && stop == (if s.conns[0].closure then Some(0) else None)
  }

  lemma SingleAcquire(s: State, a: nat, c: Choice)
    requires SingleOk(s, a) && Acquire(s, a, c).Some?
    ensures SingleOk(Acquire(s, a, c).value, a)
  {
  }

  lemma SingleSettle(s: State, a: nat, c: Choice)
    requires SingleOk(s, a) && SharedOk(s) && CallOk(s, a) && Settle(s, a, c).Some?
    ensures SingleOk(Settle(s, a, c).value, a)
  {
  }

  /** What a step of a `Stop` or gate call changes. */
  lemma NotStartStep(s: State, i: nat, c: Choice)
    requires i < |s.pcs| && !IsStart(s.pcs[i]) && Next(s, i, c).Some?
    ensures var t := Next(s, i, c).value;
            && t.pcs == s.pcs[i := t.pcs[i]] && !IsStart(t.pcs[i])
            && t.cell.ready == s.cell.ready && t.cell.stopFunc == s.cell.stopFunc
            && t.conns == (if s.pcs[i].Releasing? then Run(s.conns, Some(s.pcs[i].res)) else s.conns)
  {
    hide Acquire, Settle, Run;
  }

  lemma SingleOther(s: State, a: nat, i: nat, c: Choice)
    requires SingleOk(s, a) && i < |s.pcs| && i != a && CallOk(s, i) && SharedOk(s)
    requires Next(s, i, c).Some?
    ensures SingleOk(Next(s, i, c).value, a)
  {
    NotStartStep(s, i, c);
    hide Next, IsStart;
  }

  lemma SingleStep(s: State, a: nat, i: nat, c: Choice)
    requires Inv(s) && SingleOk(s, a) && i < |s.pcs| && Next(s, i, c).Some?
    ensures SingleOk(Next(s, i, c).value, a)
  {
    assert CallOk(s, i) && CallOk(s, a);
    hide SingleOk, Acquire, Settle;
    if i != a {
      SingleOther(s, a, i, c);
    } else if s.pcs[i].Connecting? || s.pcs[i].Connected? || s.pcs[i].Locked? {
      SingleAcquire(s, a, c);
    } else if s.pcs[i].HalfStarted? || s.pcs[i].Installed? || s.pcs[i].Waiting? {
      SingleSettle(s, a, c);
    } else {
      OnlyStartMoves(s, a, c);
    }
  }

  /** The only `Start` never takes a step of another kind of call. */
  lemma OnlyStartMoves(s: State, a: nat, c: Choice)
    requires SingleOk(s, a) && Next(s, a, c).Some?
    ensures s.pcs[a].Connecting? || HasConnected(s.pcs[a])
  {
  }

  lemma {:induction false} SingleRun(s: State, a: nat, schedule: Schedule)
    requires Inv(s) && SingleOk(s, a) && Exec(s, schedule).Some?
    ensures SingleOk(Exec(s, schedule).value, a)
    decreases schedule
  {
    hide Inv, Next, SingleOk;
    if schedule != [] {
      var (i, c) := schedule[0];
      StepKeepsInv(s, i, c);
      SingleStep(s, a, i, c);
      SingleRun(Next(s, i, c).value, a, schedule[1..]);
    }
  }

  /** With one `Start` and any number of `Stop` calls, once that `Start` and some
      `Stop` have returned the resource it acquired has been released exactly
      once, also when `Stop` landed during `Connect`; nothing panicked. */
  lemma ReleasedExactlyOnce(s: State, a: nat, schedule: Schedule, b: nat)
    requires Initial(s) && OnlyStart(s, a) && Exec(s, schedule).Some?
    ensures var t := Exec(s, schedule).value;
            && a < |t.pcs| && !t.pcs[a].Panicked?
            && (b < |t.pcs| && t.pcs[a].Started? && t.pcs[b].StopReturned? ==>
                  forall r :: 0 <= r < |t.conns| && t.conns[r].closure ==> t.conns[r].runs == 1)
  {
    InitialInv(s);
    RunKeepsInv(s, schedule);
    SingleRun(s, a, schedule);
    hide Exec, Next;
    var t := Exec(s, schedule).value;
    if b < |t.pcs| && t.pcs[a].Started? && t.pcs[b].StopReturned? {
      assert CallOk(t, b);
    }
  }

  // ------------------------------------------------------------------
  // The object
  // ------------------------------------------------------------------

  /** The object itself, one method per atomic section. */
  class Object {
    var stopped: bool
    var stopFunc: Option<Res>
    var ready: bool

    ghost function View(): Cell
      reads this
    {
      Cell(stopped, stopFunc, ready)
    }

    constructor ()
      ensures View() == FRESH
    {
      stopped, stopFunc, ready := false, None, false;
    }

    /** Between `mu.Lock` and `mu.Unlock` of `Start`. */
    method KeepClosure(stop: Option<Res>) returns (halfStarted: bool)
      modifies this
      ensures halfStarted == old(stopped)
      ensures View() == Install(old(View()), stop)
    {
      if stopped {
        return true;
      }
      stopFunc := stop;
      halfStarted := false;
    }

    /** `close(l.ready)`: a second close panics. */
    method SignalReady() returns (panics: bool)
      modifies this
      ensures panics == old(ready)
      ensures View() == old(View()).(ready := true)
    {
      panics := ready;
      ready := true;
    }

    /** `Stop` up to the call of the closure. */
    method MarkStopped() returns (run: Option<Res>)
      modifies this
      ensures run == ToRun(old(View()))
      ensures View() == old(View()).(stopped := true)
    {
      if stopped {
        return None;
      }
      stopped := true;
      run := stopFunc;
    }

    /** One atomic section on the object: it decides where the call gets to and
        leaves the fields as a step of the machine does. */
    method Step(s: State, i: nat, c: Choice) returns (pc: Pc)
      requires i < |s.pcs| && Next(s, i, c).Some? && View() == s.cell
      modifies this
      ensures View() == Next(s, i, c).value.cell && pc == Next(s, i, c).value.pcs[i]
    {
      pc := s.pcs[i];
      if pc.Locked? {
        var halfStarted := KeepClosure(pc.stop);
        pc := if halfStarted then HalfStarted(pc.stop) else Installed(pc.stop);
      } else if pc.Installed? {
        var panics := SignalReady();
        pc := if panics then Panicked else Waiting(pc.stop);
      } else if pc.StopLocked? {
        var run := MarkStopped();
        pc := if run.Some? then Releasing(run.value) else StopReturned;
      } else {
        pc := Next(s, i, c).value.pcs[i];
      }
    }
  }

  /** The closure a call at `pc` runs with its next step. */
  function Runs(pc: Pc): Option<Res>
  {
    match pc
    case HalfStarted(stop) => stop
    case Releasing(r) => Some(r)
    case _ => None
  }

  function Listed(r: Option<Res>): seq<Res>
  {
    if r.Some? then [r.value] else []
  }

  /** `ran` lists the closures run so far. */
  ghost predicate Accounts(ran: seq<Res>, conns: seq<Conn>)
  {
    forall r: Res :: multiset(ran)[r] == if r < |conns| then conns[r].runs else 0
  }

  /** What a step does to the resources: it acquires one, or it runs its closure. */
  lemma StepRuns(s: State, i: nat, c: Choice)
    requires i < |s.pcs| && Next(s, i, c).Some? && CallOk(s, i)
    ensures Runs(s.pcs[i]).Some? ==> Runs(s.pcs[i]).value < |s.conns|
    ensures Next(s, i, c).value.conns ==
            (if s.pcs[i].Connecting? && c.ConnectOk? then s.conns + [Conn(c.closure, 0)] else Run(s.conns, Runs(s.pcs[i])))
  {
    hide Run, Install, ToRun;
    assert Run(s.conns, None) == s.conns by {
      RunNothing(s.conns);
    }
  }

  lemma RunNothing(conns: seq<Conn>)
    ensures Run(conns, None) == conns
  {
  }

  lemma StepAccounts(s: State, i: nat, c: Choice, ran: seq<Res>)
    requires i < |s.pcs| && Next(s, i, c).Some? && CallOk(s, i) && Accounts(ran, s.conns)
    ensures Accounts(ran + Listed(Runs(s.pcs[i])), Next(s, i, c).value.conns)
  {
    StepRuns(s, i, c);
    hide Next, CallOk;
  }

  /** Any schedule of atomic sections, played on one object: calls go where the
      object's answers send them and run the closures it hands out, while the lock and
      the resources are the environment's. This is a run of the machine, and among the
      closures run none occurs twice. */
  method Drive(s: State, schedule: Schedule) returns (o: Object, t: State, ran: seq<Res>)
    requires Initial(s) && Exec(s, schedule).Some?
    ensures Exec(s, schedule) == Some(t) && o.View() == t.cell
    ensures Accounts(ran, t.conns) && forall r: Res :: multiset(ran)[r] <= 1
  {
    o := new Object();
    t, ran := s, [];
    InitialInv(s);
    for n := 0 to |schedule|
      invariant Exec(t, schedule[n..]) == Exec(s, schedule)
      invariant Inv(t) && o.View() == t.cell && Accounts(ran, t.conns)
    {
      hide Inv, Accounts, Next;
      var (i, c) := schedule[n];
      assert schedule[n..][0] == schedule[n] && schedule[n..][1..] == schedule[n + 1..];
      InvCall(t, i);
      StepAccounts(t, i, c, ran);
      StepKeepsInv(t, i, c);
      StepKeepsKinds(t, i, c);
      var around := Next(t, i, c).value;
      var pc := o.Step(t, i, c);
      ran := ran + Listed(Runs(t.pcs[i]));
      t := State(Cell(o.stopped, o.stopFunc, o.ready), around.mu, around.conns, around.pool, t.pcs[i := pc]);
      assert t == around;
    }
    assert schedule[|schedule|..] == [];
  }

  lemma InvCall(s: State, i: nat)
    requires Inv(s) && i < |s.pcs|
    ensures CallOk(s, i)
  {
  }

  // ------------------------------------------------------------------
  // Two promises that do not hold of every run
  // ------------------------------------------------------------------

  /** The call got past `close(l.ready)`. */
  predicate Signalled(pc: Pc)
  {
    pc.Waiting? || (pc.Started? && pc.result.Cancelled?)
  }

  /** Exactly one call signals readiness when it is signalled at all. */
  predicate OneSignal(s: State)
  {
    && (forall i, j :: 0 <= i < |s.pcs| && 0 <= j < |s.pcs| && Signalled(s.pcs[i]) && Signalled(s.pcs[j]) ==> i == j)
    && (s.cell.ready <==> exists i :: 0 <= i < |s.pcs| && Signalled(s.pcs[i]))
    && (forall i :: 0 <= i < |s.pcs| && s.pcs[i].Panicked? ==> s.cell.ready)
  }

  /** What a step from `s` to `t` can do to readiness. */
  predicate ReadyMoved(s: State, t: State, i: nat)
    requires i < |s.pcs|
  {
    && |t.pcs| == |s.pcs| && t.pcs == s.pcs[i := t.pcs[i]]
    && (t.cell.ready <==> s.cell.ready || (s.pcs[i].Installed? && t.pcs[i].Waiting?))
    && (Signalled(s.pcs[i]) ==> Signalled(t.pcs[i]))
    && (Signalled(t.pcs[i]) && !Signalled(s.pcs[i]) ==> s.pcs[i].Installed? && !s.cell.ready)
    && (t.pcs[i].Panicked? ==> s.cell.ready)
  }

  lemma AcquireReadyMoved(s: State, i: nat, c: Choice)
    requires i < |s.pcs| && Acquire(s, i, c).Some?
    ensures ReadyMoved(s, Acquire(s, i, c).value, i)
  {
  }

  lemma SettleReadyMoved(s: State, i: nat, c: Choice)
    requires i < |s.pcs| && Settle(s, i, c).Some?
    ensures ReadyMoved(s, Settle(s, i, c).value, i)
  {
    hide Run;
  }

  lemma OtherReadyMoved(s: State, i: nat, c: Choice)
    requires i < |s.pcs|
    ensures Halt(s, i).Some? ==> ReadyMoved(s, Halt(s, i).value, i)
    ensures Gate(s, i, c).Some? ==> ReadyMoved(s, Gate(s, i, c).value, i)
  {
    hide Run;
  }

  lemma ReadyProtocol(s: State, i: nat, c: Choice)
    requires i < |s.pcs| && Next(s, i, c).Some?
    ensures ReadyMoved(s, Next(s, i, c).value, i)
  {
    hide Acquire, Settle, Halt, Gate, ReadyMoved;
    OtherReadyMoved(s, i, c);
    if Acquire(s, i, c).Some? {
      AcquireReadyMoved(s, i, c);
    }
    if Settle(s, i, c).Some? {
      SettleReadyMoved(s, i, c);
    }
  }

  lemma SignalStep(s: State, i: nat, c: Choice)
    requires i < |s.pcs| && Next(s, i, c).Some? && OneSignal(s)
    ensures OneSignal(Next(s, i, c).value)
  {
    var t := Next(s, i, c).value;
    ReadyProtocol(s, i, c);
    hide Next, Signalled;
    if t.cell.ready {
      if s.cell.ready {
        var k :| 0 <= k < |s.pcs| && Signalled(s.pcs[k]);
        assert Signalled(t.pcs[k]);
      } else {
        assert Signalled(t.pcs[i]) by { SignalledWaiting(t.pcs[i]); }
      }
    }
  }

  lemma SignalledWaiting(pc: Pc)
    requires pc.Waiting?
    ensures Signalled(pc)
  {
  }

  lemma {:induction false} SignalRun(s: State, schedule: Schedule)
    requires OneSignal(s) && Exec(s, schedule).Some?
    ensures OneSignal(Exec(s, schedule).value)
    decreases schedule
  {
    hide OneSignal, Next;
    if schedule != [] {
      var (i, c) := schedule[0];
      SignalStep(s, i, c);
      SignalRun(Next(s, i, c).value, schedule[1..]);
    }
  }

  predicate IsStop(pc: Pc)
  {
    pc.StopCalled? || pc.StopLocked? || pc.Releasing? || pc.StopReturned?
  }

  /** A call stays the kind of call it is. */
  lemma StepKeepsKinds(s: State, i: nat, c: Choice)
    requires i < |s.pcs| && Next(s, i, c).Some?
    ensures var t := Next(s, i, c).value;
            && t.pcs == s.pcs[i := t.pcs[i]]
            && (IsStart(t.pcs[i]) <==> IsStart(s.pcs[i])) && (IsStop(t.pcs[i]) <==> IsStop(s.pcs[i]))
  {
    hide Run;
  }

  lemma {:induction false} RunKeepsKinds(s: State, schedule: Schedule, j: nat)
    requires Exec(s, schedule).Some? && j < |s.pcs|
    ensures var t := Exec(s, schedule).value;
            && |t.pcs| == |s.pcs|
            && (IsStart(t.pcs[j]) <==> IsStart(s.pcs[j])) && (IsStop(t.pcs[j]) <==> IsStop(s.pcs[j]))
    decreases schedule
  {
    hide Next, IsStart, IsStop;
    if schedule != [] {
      var (i, c) := schedule[0];
      StepKeepsKinds(s, i, c);
      RunKeepsKinds(Next(s, i, c).value, schedule[1..], j);
    }
  }

  /** Of two `Start` calls that kept their closures and came back, one panicked on
      the second `close`; and a `Start` panics only when another one signalled
      readiness before it. */
  lemma SecondStartPanics(s: State, schedule: Schedule, i: nat, j: nat)
    requires Initial(s) && Exec(s, schedule).Some?
    requires i != j && i < |Exec(s, schedule).value.pcs| && j < |Exec(s, schedule).value.pcs|
    ensures var t := Exec(s, schedule).value;
            && !(Signalled(t.pcs[i]) && Signalled(t.pcs[j]))
            && (t.pcs[i].Panicked? ==> exists k :: 0 <= k < |t.pcs| && k != i && Signalled(t.pcs[k]))
  {
    SignalRun(s, schedule);
    hide Exec;
  }

  /** Some call panics in this run. */
  predicate Panics(s: State, schedule: Schedule)
  {
    Exec(s, schedule).Some? && exists i :: 0 <= i < |Exec(s, schedule).value.pcs| && Exec(s, schedule).value.pcs[i].Panicked?
  }

  predicate TwoStarts(s: State)
  {
    exists i, j :: 0 <= i < |s.pcs| && 0 <= j < |s.pcs| && i != j && s.pcs[i].Connecting? && s.pcs[j].Connecting?
  }

  /** Reusing a `Lifecycle` is what makes it panic: from the beginning, some run
      panics exactly when `Start` is called at least twice. */
  lemma PanicsIffStartedTwice(s: State)
    requires Initial(s)
    ensures (exists schedule: Schedule :: Panics(s, schedule)) <==> TwoStarts(s)
  {
    forall schedule: Schedule | Panics(s, schedule)
      ensures TwoStarts(s)
    {
      PanicNeedsTwo(s, schedule);
    }
    if TwoStarts(s) {
      var i, j :| 0 <= i < |s.pcs| && 0 <= j < |s.pcs| && i != j && s.pcs[i].Connecting? && s.pcs[j].Connecting?;
      var schedule := TwoStartsPanic(s, i, j);
      assert Panics(s, schedule);
    }
  }

  lemma PanicNeedsTwo(s: State, schedule: Schedule)
    requires Initial(s) && Panics(s, schedule)
    ensures TwoStarts(s)
  {
    hide Exec;
    var t := Exec(s, schedule).value;
    var i :| 0 <= i < |t.pcs| && t.pcs[i].Panicked?;
    SignalRun(s, schedule) by {
      assert OneSignal(s);
    }
    var k :| 0 <= k < |t.pcs| && Signalled(t.pcs[k]);
    RunHasSameCalls(s, schedule);
    RunKeepsKinds(s, schedule, i);
    RunKeepsKinds(s, schedule, k);
    assert s.pcs[i].Connecting? && s.pcs[k].Connecting?;
  }

  lemma RunHasSameCalls(s: State, schedule: Schedule)
    requires Exec(s, schedule).Some?
    ensures |Exec(s, schedule).value.pcs| == |s.pcs|
    decreases schedule
  {
    if schedule != [] {
      var (i, c) := schedule[0];
      StepKeepsKinds(s, i, c);
      RunHasSameCalls(Next(s, i, c).value, schedule[1..]);
    }
  }

  /** Taking one more step at the end of a run. */
  lemma TakeStep(s: State, before: Schedule, u: State, i: nat, c: Choice) returns (schedule: Schedule, t: State)
    requires Exec(s, before) == Some(u) && i < |u.pcs| && Next(u, i, c).Some?
    ensures schedule == before + [(i, c)] && t == Next(u, i, c).value && Exec(s, schedule) == Some(t)
  {
    ExecAppend(s, before, (i, c));
    schedule, t := before + [(i, c)], Next(u, i, c).value;
  }

  /** The first `Start` signals readiness, the second keeps its closure too. */
  lemma TwoStartsPanic(s: State, i: nat, j: nat) returns (schedule: Schedule)
    requires Initial(s) && i < |s.pcs| && j < |s.pcs| && i != j && s.pcs[i].Connecting? && s.pcs[j].Connecting?
    ensures Exec(s, schedule).Some? && |Exec(s, schedule).value.pcs| == |s.pcs|
    ensures Exec(s, schedule).value.pcs[j].Panicked?
  {
    var t;
    schedule, t := StartKeepsClosure(s, i);
    hide Exec;
    schedule, t := TakeStep(s, schedule, t, i, Proceed);
    schedule, t := TakeStep(s, schedule, t, j, ConnectOk(true));
    schedule, t := TakeStep(s, schedule, t, j, Proceed);
    schedule, t := TakeStep(s, schedule, t, j, Proceed);
    schedule, t := TakeStep(s, schedule, t, j, Proceed);
  }

  /** A `Start` and a `Stop` from the beginning, the `Start` up to keeping its closure. */
  lemma StartKeepsClosure(s: State, i: nat) returns (schedule: Schedule, t: State)
    requires Initial(s) && i < |s.pcs| && s.pcs[i].Connecting?
    ensures Exec(s, schedule) == Some(t)
    ensures t == State(Cell(false, Some(0), false), None, [Conn(true, 0)], Some(0), s.pcs[i := Installed(Some(0))])
  {
    schedule, t := [], s;
    schedule, t := TakeStep(s, schedule, t, i, ConnectOk(true));
    schedule, t := TakeStep(s, schedule, t, i, Proceed);
    schedule, t := TakeStep(s, schedule, t, i, Proceed);
    assert t.pcs == s.pcs[i := Installed(Some(0))];
  }

  /** "Never ready after stop" is false: whenever a `Start` and a `Stop` are both
      called, there is a run in which `Stop` returns, having released the
      resource, between the critical section of `Start` and its `close(l.ready)`. */
  lemma ReadyAfterStop(s: State, i: nat, j: nat) returns (schedule: Schedule)
    requires Initial(s) && i < |s.pcs| && j < |s.pcs| && s.pcs[i].Connecting? && s.pcs[j].StopCalled?
    ensures Exec(s, schedule).Some?
    ensures var t := Exec(s, schedule).value;
            && i < |t.pcs| && t.pcs[i].Installed? && t.cell.stopped
            && j < |t.pcs| && t.pcs[j].StopReturned? && !t.cell.ready && t.conns == [Conn(true, 1)]
  {
    var t;
    schedule, t := StartKeepsClosure(s, i);
    hide Exec;
    schedule, t := TakeStep(s, schedule, t, j, Proceed);
    schedule, t := TakeStep(s, schedule, t, j, Proceed);
    schedule, t := TakeStep(s, schedule, t, j, Proceed);
  }

  predicate SomeInstalled(s: State)
  {
    exists i :: 0 <= i < |s.pcs| && s.pcs[i].Installed?
  }

  predicate BecomesReady(s: State, schedule: Schedule)
  {
    Exec(s, schedule).Some? && Exec(s, schedule).value.cell.ready
  }

  /** Once stopped, no call gets to keep its closure any more. */
  lemma StoppedStep(s: State, i: nat, c: Choice)
    requires i < |s.pcs| && Next(s, i, c).Some? && s.cell.stopped && !s.cell.ready && !SomeInstalled(s)
    ensures var t := Next(s, i, c).value; t.cell.stopped && !t.cell.ready && !SomeInstalled(t)
  {
    StepKeepsKinds(s, i, c);
    var t := Next(s, i, c).value;
    assert !t.pcs[i].Installed? && t.cell.stopped && !t.cell.ready by {
      hide Run;
    }
    hide Next;
    forall j | 0 <= j < |t.pcs|
      ensures !t.pcs[j].Installed?
    {
      assert j != i ==> t.pcs[j] == s.pcs[j];
    }
  }

  lemma {:induction false} StoppedStaysUnready(s: State, schedule: Schedule)
    requires Exec(s, schedule).Some? && s.cell.stopped && !s.cell.ready && !SomeInstalled(s)
    ensures !Exec(s, schedule).value.cell.ready
    decreases schedule
  {
    hide Next, SomeInstalled;
    if schedule != [] {
      var (i, c) := schedule[0];
      StoppedStep(s, i, c);
      StoppedStaysUnready(Next(s, i, c).value, schedule[1..]);
    }
  }

  /** Exactly when readiness can follow a stop: in a stopped state that is not
      ready, some continuation signals readiness if and only if a `Start` is
      between its critical section and `close(l.ready)`. */
  lemma ReadyAfterStopIff(s: State)
    requires s.cell.stopped && !s.cell.ready
    ensures (exists schedule: Schedule :: BecomesReady(s, schedule)) <==> SomeInstalled(s)
  {
    if !SomeInstalled(s) {
      forall schedule: Schedule | Exec(s, schedule).Some?
        ensures !BecomesReady(s, schedule)
      {
        StoppedStaysUnready(s, schedule);
      }
    } else {
      var i :| 0 <= i < |s.pcs| && s.pcs[i].Installed?;
      var schedule, t := TakeStep(s, [], s, i, Proceed);
      assert BecomesReady(s, schedule);
    }
  }

  /** `Stop` has returned after `schedule`, readiness is signalled only `later`. */
  predicate Overtakes(s: State, schedule: Schedule, later: Schedule)
  {
    && Exec(s, schedule).Some?
    && var t := Exec(s, schedule).value;
    && (exists j :: 0 <= j < |t.pcs| && t.pcs[j].StopReturned?) && !t.cell.ready && BecomesReady(t, later)
  }

  /** From the beginning: some run signals readiness after a `Stop` has returned
      if and only if `Start` and `Stop` are both called. */
  lemma StopOvertakesIff(s: State)
    requires Initial(s)
    ensures (exists schedule: Schedule, later: Schedule :: Overtakes(s, schedule, later))
            <==> (exists i :: 0 <= i < |s.pcs| && s.pcs[i].Connecting?) && (exists j :: 0 <= j < |s.pcs| && s.pcs[j].StopCalled?)
  {
    hide Exec;
    forall schedule: Schedule, later: Schedule | Overtakes(s, schedule, later)
      ensures exists i :: 0 <= i < |s.pcs| && s.pcs[i].Connecting?
      ensures exists j :: 0 <= j < |s.pcs| && s.pcs[j].StopCalled?
    {
      OvertakingNeedsBoth(s, schedule, later);
    }
    if (exists i :: 0 <= i < |s.pcs| && s.pcs[i].Connecting?) && (exists j :: 0 <= j < |s.pcs| && s.pcs[j].StopCalled?) {
      var i :| 0 <= i < |s.pcs| && s.pcs[i].Connecting?;
      var j :| 0 <= j < |s.pcs| && s.pcs[j].StopCalled?;
      var schedule := ReadyAfterStop(s, i, j);
      var t := Exec(s, schedule).value;
      ReadyAfterStopIff(t);
      var later: Schedule :| BecomesReady(t, later);
      assert Overtakes(s, schedule, later);
    }
  }

  lemma OvertakingNeedsBoth(s: State, schedule: Schedule, later: Schedule)
    requires Initial(s) && Overtakes(s, schedule, later)
    ensures exists i :: 0 <= i < |s.pcs| && s.pcs[i].Connecting?
    ensures exists j :: 0 <= j < |s.pcs| && s.pcs[j].StopCalled?
  {
    hide Exec;
    var t := Exec(s, schedule).value;
    InitialInv(s);
    RunKeepsInv(s, schedule);
    RunHasSameCalls(s, schedule);
    var j :| 0 <= j < |t.pcs| && t.pcs[j].StopReturned?;
    RunKeepsKinds(s, schedule, j);
    assert s.pcs[j].StopCalled?;
    assert CallOk(t, j);
    ReadyAfterStopIff(t);
    var i :| 0 <= i < |t.pcs| && t.pcs[i].Installed?;
    RunKeepsKinds(s, schedule, i);
    assert s.pcs[i].Connecting?;
  }

  lemma {:induction false} ExecAppend(s: State, schedule: Schedule, last: (nat, Choice))
    requires Exec(s, schedule).Some? && last.0 < |Exec(s, schedule).value.pcs|
    ensures Exec(s, schedule + [last]) == Next(Exec(s, schedule).value, last.0, last.1)
    decreases schedule
  {
    hide Next;
    if schedule == [] {
      assert schedule + [last] == [last];
      assert Exec(s, [last]) == Next(s, last.0, last.1);
    } else {
      assert (schedule + [last])[1..] == schedule[1..] + [last];
      ExecAppend(Next(s, schedule[0].0, schedule[0].1).value, schedule[1..], last);
    }
  }

  // ------------------------------------------------------------------
  // Calls end as the schedule says, and they can end
  // ------------------------------------------------------------------

  lemma {:induction false} ExecPrefix(s: State, schedule: Schedule)
    requires schedule != [] && Exec(s, schedule).Some?
    ensures var init, last := schedule[..|schedule| - 1], schedule[|schedule| - 1];
            && Exec(s, init).Some? && last.0 < |Exec(s, init).value.pcs|
            && Exec(s, schedule) == Next(Exec(s, init).value, last.0, last.1)
    decreases schedule
  {
    hide Next;
    if |schedule| == 1 {
      assert schedule[1..] == [] && schedule[..0] == [];
    } else {
      var rest := schedule[1..];
      assert rest[..|rest| - 1] == schedule[..|schedule| - 1][1..];
      ExecPrefix(Next(s, schedule[0].0, schedule[0].1).value, rest);
    }
  }

  /** `Connect` of the call succeeded. */
  predicate Succeeded(pc: Pc)
  {
    HasConnected(pc) || pc.Panicked? || (pc.Started? && !pc.result.ConnectError?)
  }

  /** The call is where the environment's decisions about it have sent it. */
  predicate Obeys(pc: Pc, i: nat, schedule: Schedule)
  {
    && (Succeeded(pc) <==> (i, ConnectOk(true)) in schedule || (i, ConnectOk(false)) in schedule)
    && (pc == Started(ConnectError) <==> (i, ConnectFails) in schedule)
    && ((pc.Started? && pc.result.Cancelled?) || pc.GateRefused? <==> (i, ContextDone) in schedule)
  }

  lemma StepObeys(s: State, i: nat, c: Choice, j: nat, schedule: Schedule)
    requires i < |s.pcs| && j < |s.pcs| && Next(s, i, c).Some? && Obeys(s.pcs[j], j, schedule)
    ensures var t := Next(s, i, c).value;
            |t.pcs| == |s.pcs| && Obeys(t.pcs[j], j, schedule + [(i, c)])
  {
    StepKeepsKinds(s, i, c);
    var more := schedule + [(i, c)];
    assert forall e :: e in more <==> e in schedule || e == (i, c);
    if j == i {
      StepDecided(s, i, c);
    }
    hide Next;
  }

  /** What a step makes of its own call, by what the environment decided. */
  lemma StepDecided(s: State, i: nat, c: Choice)
    requires i < |s.pcs| && Next(s, i, c).Some?
    ensures var pc, to := s.pcs[i], Next(s, i, c).value.pcs[i];
            && (Succeeded(to) <==> Succeeded(pc) || c.ConnectOk?)
            && (to == Started(ConnectError) <==> pc == Started(ConnectError) || c.ConnectFails?)
            && ((to.Started? && to.result.Cancelled?) || to.GateRefused? <==>
                  (pc.Started? && pc.result.Cancelled?) || pc.GateRefused? || c.ContextDone?)
  {
    hide Run, Install, ToRun;
  }

  /** How every call ends follows from what the environment decided, in every run: its
      `Connect` succeeded exactly if it was let succeed; it returned the error of
      `Connect` exactly if that failed; it returned the error of its context, or was
      refused at the gate, exactly if its context was seen done. */
  lemma {:induction false} CallsObeyTheSchedule(s: State, schedule: Schedule, j: nat)
    requires Initial(s) && Exec(s, schedule).Some? && j < |s.pcs|
    ensures j < |Exec(s, schedule).value.pcs| && Obeys(Exec(s, schedule).value.pcs[j], j, schedule)
    decreases schedule
  {
    if schedule != [] {
      ExecPrefix(s, schedule);
      var init, last := schedule[..|schedule| - 1], schedule[|schedule| - 1];
      hide Exec, Next, Obeys;
      CallsObeyTheSchedule(s, init, j);
      StepObeys(Exec(s, init).value, last.0, last.1, j, init);
      assert init + [last] == schedule;
    }
  }

  /** In every reachable state: the gate lets a call through exactly when readiness is
      signalled, the call then finds the pool, and it can be refused only by its context. */
  lemma GateOpensWhenReady(s: State, schedule: Schedule, i: nat)
    requires Initial(s) && Exec(s, schedule).Some? && i < |Exec(s, schedule).value.pcs|
    requires Exec(s, schedule).value.pcs[i].AtGate?
    ensures var t := Exec(s, schedule).value;
            && (t.cell.ready <==> Next(t, i, Proceed).Some?)
            && (t.cell.ready ==>
                  var u := Next(t, i, Proceed).value;
                  && |u.pcs| == |t.pcs| && u.pcs[i].ThroughGate?
                  && Next(u, i, Proceed) == Some(At(u, i, Operated(true))))
            && Next(t, i, ContextDone) == Some(At(t, i, GateRefused))
  {
    InitialInv(s);
    RunKeepsInv(s, schedule);
    hide Exec;
    assert SharedOk(Exec(s, schedule).value);
  }

  /** The call got through the gate in this run and operated on a pool. */
  predicate Operates(s: State, schedule: Schedule, g: nat)
  {
    Exec(s, schedule).Some? && g < |Exec(s, schedule).value.pcs| && Exec(s, schedule).value.pcs[g] == Operated(true)
  }

  /** From the beginning, a gated call gets to operate in some run if and only if some
      `Start` is called. */
  lemma OperatesIffStarted(s: State, g: nat)
    requires Initial(s) && g < |s.pcs| && s.pcs[g].AtGate?
    ensures (exists schedule: Schedule :: Operates(s, schedule, g)) <==> exists i :: 0 <= i < |s.pcs| && s.pcs[i].Connecting?
  {
    hide Exec;
    forall schedule: Schedule | Operates(s, schedule, g)
      ensures exists i :: 0 <= i < |s.pcs| && s.pcs[i].Connecting?
    {
      OperatingNeedsStart(s, schedule, g);
    }
    if i :| 0 <= i < |s.pcs| && s.pcs[i].Connecting? {
      var schedule, t := StartKeepsClosure(s, i);
      schedule, t := TakeStep(s, schedule, t, i, Proceed);
      schedule, t := TakeStep(s, schedule, t, g, Proceed);
      schedule, t := TakeStep(s, schedule, t, g, Proceed);
      assert Operates(s, schedule, g);
    }
  }

  lemma OperatingNeedsStart(s: State, schedule: Schedule, g: nat)
    requires Initial(s) && Operates(s, schedule, g)
    ensures exists i :: 0 <= i < |s.pcs| && s.pcs[i].Connecting?
  {
    hide Exec;
    var t := Exec(s, schedule).value;
    InitialInv(s);
    RunKeepsInv(s, schedule);
    assert CallOk(t, g);
    assert OneSignal(s);
    SignalRun(s, schedule);
    var k :| 0 <= k < |t.pcs| && Signalled(t.pcs[k]);
    RunHasSameCalls(s, schedule);
    RunKeepsKinds(s, schedule, k);
    assert s.pcs[k].Connecting?;
  }

  predicate Over(pc: Pc)
  {
    pc.Started? || pc.Panicked? || pc.StopReturned? || pc.GateRefused? || pc.Operated?
  }

  /** How many steps a call can have before it. */
  function Rank(pc: Pc): nat
  {
    match pc
    case Connecting => 6
    case Connected(_) => 5
    case Locked(_) => 4
    case Installed(_) => 3
    case HalfStarted(_) => 2
    case Waiting(_) => 1
    case StopCalled => 3
    case StopLocked => 2
    case Releasing(_) => 1
    case AtGate => 2
    case ThroughGate => 1
    case _ => 0
  }

  /** A decision that lets the call move. */
  function Push(pc: Pc): Choice
  {
    if pc.Connecting? then ConnectFails else if pc.Waiting? || pc.AtGate? then ContextDone else Proceed
  }

  lemma PushMoves(s: State, i: nat)
    requires i < |s.pcs| && !Over(s.pcs[i]) && (s.pcs[i].Connected? || s.pcs[i].StopCalled? ==> s.mu.None?)
    ensures Next(s, i, Push(s.pcs[i])).Some?
    ensures var t := Next(s, i, Push(s.pcs[i])).value;
            |t.pcs| == |s.pcs| && t.pcs == s.pcs[i := t.pcs[i]] && Rank(t.pcs[i]) < Rank(s.pcs[i])
  {
    hide Run, Install;
  }

  /** No call is ever stuck: from every state of a run, whatever the other calls are
      doing, any call can be brought to its end. */
  lemma {:induction false} EveryCallCanReturn(s: State, i: nat) returns (schedule: Schedule)
    requires Inv(s) && i < |s.pcs|
    ensures Exec(s, schedule).Some? && |Exec(s, schedule).value.pcs| == |s.pcs| && Over(Exec(s, schedule).value.pcs[i])
    decreases Rank(s.pcs[i]), if s.mu.Some? && s.mu.value < |s.pcs| then Rank(s.pcs[s.mu.value]) + 1 else 0
  {
    if Over(s.pcs[i]) {
      schedule := [];
    } else {
      var j := if s.mu.Some? then s.mu.value else i;
      HolderMoves(s, i, j);
      hide Inv, Next, Over, Rank, Push;
      var c := Push(s.pcs[j]);
      StepKeepsInv(s, j, c);
      var rest := EveryCallCanReturn(Next(s, j, c).value, i);
      schedule := [(j, c)] + rest;
      assert schedule[1..] == rest;
    }
  }

  /** Moving the holder of the lock, if there is one, and else the call itself, brings
      the call nearer to its end. */
  lemma HolderMoves(s: State, i: nat, j: nat)
    requires Inv(s) && i < |s.pcs| && !Over(s.pcs[i]) && j == if s.mu.Some? then s.mu.value else i
    ensures j < |s.pcs| && Next(s, j, Push(s.pcs[j])).Some?
    ensures var t := Next(s, j, Push(s.pcs[j])).value;
            && |t.pcs| == |s.pcs| && Rank(t.pcs[i]) <= Rank(s.pcs[i])
            && (Rank(t.pcs[i]) == Rank(s.pcs[i]) ==>
                  && s.mu.Some? && (t.mu.Some? ==> t.mu == s.mu)
                  && Rank(t.pcs[j]) < Rank(s.pcs[j]))
  {
    assert SharedOk(s) && CallOk(s, i) && (s.mu.Some? ==> CallOk(s, j));
    hide Inv, Apart, StopPending;
    PushMoves(s, j);
    if s.mu.Some? {
      HolderKeepsLock(s, j);
    }
    hide Next, CallOk, SharedOk;
  }

  lemma HolderKeepsLock(s: State, j: nat)
    requires j < |s.pcs| && HoldsLock(s.pcs[j]) && s.mu == Some(j) && Next(s, j, Push(s.pcs[j])).Some?
    ensures var t := Next(s, j, Push(s.pcs[j])).value; t.mu.Some? ==> t.mu == s.mu
  {
    hide Run, Install;
  }
}
