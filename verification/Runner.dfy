/** `ApplicationRunner.Run` over components built on `core.Lifecycle`: the start
    supervisor as a fork-join group, then the sequential shutdown. */
module Runner {
  import opened Common
  import L = Lifecycle
  import opened Shutdown

  datatype Config = Config(timeout: nat, startDeadline: bool)

  /** What `svc.Start` returned; `Canceled` is anything `errors.Is` matches
      with `context.Canceled`. */
  datatype StartResult = Nil | Canceled | Other(code: int)

  datatype Error = ServiceFailed(service: nat, code: int) | StartDeadline(service: nat) | GroupContext

  /** The goroutine running `svc.Start`. A critical section is one step. */
  datatype StartPc =
    | Unspawned
    | Connecting
    | Connected(stop: Option<nat>)
    | HalfStarted(stop: Option<nat>)
    | Installed
    | Waiting
    | Returning(result: StartResult)
    | Returned(result: StartResult)
    | Panicked

  /** The deadline watcher of a service, if it has one. */
  datatype WatchPc = Off | Watching | Leaving(err: Option<Error>) | Left(err: Option<Error>)

  /** A component: its lifecycle, its two goroutines, whether its own context was
      cancelled, whether it acquired a resource with a stop closure, and how
      often that closure ran. */
  datatype Svc = Svc(
    cell: L.Cell, start: StartPc, watch: WatchPc, cancelled: bool, readyable: bool, acquired: bool, runs: nat)

  datatype Phase = Starting | Stopping | Finished

  /** `first` is the error the group keeps, `outcomes` what its goroutines
      returned in the order they did, `releases` the services whose stop closures
      ran in the order they did. */
  datatype State = State(
    phase: Phase, spawned: nat, svcs: seq<Svc>, outerDone: bool, outerAtJoin: bool, first: Option<Error>,
    outcomes: seq<Option<Error>>, calls: seq<StopCall>, releases: seq<nat>)

  /** What the environment decides for a start goroutine: nothing, the outcome of
      `Connect`, or with what the call returns. */
  datatype Choice = Proceed | ConnectOk(closure: bool) | ConnectFails(result: StartResult) | Ends(result: StartResult)

  datatype Arm = ReadyArm | TimerArm | ContextArm

  datatype Action =
    | CancelOuter
    | Spawn
    | StartMoves(i: nat, choice: Choice)
    | StartReturns(i: nat)
    | WatchMoves(i: nat, arm: Arm)
    | WatchReturns(i: nat)
    | Join
    | StopNext(elapsed: nat, error: Option<int>)
    | Finish

  predicate Initial(s: State)
  {
    && s.phase.Starting? && s.spawned == 0 && !s.outerDone && !s.outerAtJoin && s.first.None?
    && s.outcomes == [] && s.calls == [] && s.releases == []
    && forall i :: 0 <= i < |s.svcs| ==> s.svcs[i] == Svc(L.FRESH, Unspawned, Off, false, s.svcs[i].readyable, false, 0)
  }

  /** The group's context: derived from the outer one, cancelled by the first error. */
  predicate GroupDone(s: State)
  {
    s.outerDone || s.first.Some?
  }

  // ------------------------------------------------------------------
  // Steps
  // ------------------------------------------------------------------

  /** One step of `Lifecycle.Start` of service `i`; `done` tells whether its
      context is done. */
  function StartStep(v: Svc, i: nat, done: bool, c: Choice): Option<Svc>
  {
    match v.start
    case Connecting => (
      match c
      case ConnectOk(closure) =>
        Some(v.(start := Connected(if closure then Some(i) else None), acquired := closure))
      case ConnectFails(result) => if result.Nil? then None else Some(v.(start := Returning(result)))
      case _ => None)
    case Connected(stop) =>
      if !c.Proceed? then None else
        Some(v.(cell := L.Install(v.cell, stop), start := if v.cell.stopped then HalfStarted(stop) else Installed))
    case HalfStarted(stop) =>
      if !c.Ends? then None else
        Some(v.(start := Returning(c.result), runs := v.runs + (if stop.Some? then 1 else 0)))
    case Installed =>
      if !c.Proceed? then None
      else if v.cell.ready then Some(v.(start := Panicked))
      else Some(v.(cell := v.cell.(ready := true), start := Waiting))
    case Waiting => if done && c.Ends? && !c.result.Nil? then Some(v.(start := Returning(c.result))) else None
    case _ => None
  }

  /** One `select` of a deadline watcher. */
  function WatchStep(v: Svc, i: nat, groupDone: bool, arm: Arm): Option<Svc>
  {
    if !v.watch.Watching? then None else
      match arm
      case ReadyArm => if v.cell.ready then Some(v.(watch := Leaving(None))) else None
      case TimerArm => Some(v.(watch := Leaving(Some(StartDeadline(i))), cancelled := true))
      case ContextArm => if groupDone then Some(v.(watch := Leaving(Some(GroupContext)))) else None
  }

  /** What the start goroutine hands to the group: nil and Canceled are no errors. */
  function Reported(i: nat, r: StartResult): Option<Error>
  {
    if r.Other? then Some(ServiceFailed(i, r.code)) else None
  }

  /** The errgroup: the first error sticks and cancels the group's context. */
  function GroupReturn(s: State, err: Option<Error>): State
  {
    s.(outcomes := s.outcomes + [err], first := if s.first.None? then err else s.first)
  }

  predicate Joinable(v: Svc)
  {
    v.start.Returned? && (v.watch.Off? || v.watch.Left?)
  }

  function WithSvc(s: State, i: nat, v: Svc): State
    requires i < |s.svcs|
  {
    s.(svcs := s.svcs[i := v])
  }

  function StartPhase(cfg: Config, s: State, a: Action): Option<State>
  {
    match a
    case Spawn =>
      if s.spawned >= |s.svcs| then None else
        var v := s.svcs[s.spawned];
        var w := v.(start := Connecting, watch := if cfg.startDeadline && v.readyable then Watching else Off);
        Some(WithSvc(s, s.spawned, w).(spawned := s.spawned + 1))
    case StartMoves(i, c) =>
      if i >= |s.svcs| then None else
        var v := StartStep(s.svcs[i], i, GroupDone(s) || s.svcs[i].cancelled, c);
        if v.None? then None else
          var released := if v.value.runs > s.svcs[i].runs then [i] else [];
          Some(WithSvc(s, i, v.value).(releases := s.releases + released))
    case StartReturns(i) =>
      if i >= |s.svcs| || !s.svcs[i].start.Returning? then None else
        var r := s.svcs[i].start.result;
        Some(GroupReturn(WithSvc(s, i, s.svcs[i].(start := Returned(r), cancelled := true)), Reported(i, r)))
    case WatchMoves(i, arm) =>
      if i >= |s.svcs| then None else
        var v := WatchStep(s.svcs[i], i, GroupDone(s), arm);
        if v.None? then None else Some(WithSvc(s, i, v.value))
    case WatchReturns(i) =>
      if i >= |s.svcs| || !s.svcs[i].watch.Leaving? then None else
        var err := s.svcs[i].watch.err;
        Some(GroupReturn(WithSvc(s, i, s.svcs[i].(watch := Left(err))), err))
    case Join =>
      if s.spawned == |s.svcs| && forall i :: 0 <= i < |s.svcs| ==> Joinable(s.svcs[i])
      then Some(s.(phase := Stopping, outerAtJoin := s.outerDone)) else None
    case _ => None
  }

  /** One iteration of the shutdown loop. */
  function StopStep(cfg: Config, s: State, elapsed: nat, error: Option<int>): (r: State)
    requires |s.calls| < |s.svcs|
  {
    var i := |s.svcs| - 1 - |s.calls|;
    var v := s.svcs[i];
    var run := L.ToRun(v.cell);
    var budget := Share(Shutdown.Left(cfg.timeout, s.calls), |s.svcs| - |s.calls|);
    var call := StopCall(i, budget, elapsed, s.outerDone || budget == 0, if run.Some? then error else None);
    WithSvc(s, i, v.(cell := v.cell.(stopped := true), runs := v.runs + (if run.Some? then 1 else 0)))
    .(calls := s.calls + [call], releases := if run.Some? then s.releases + [i] else s.releases)
  }

  function Next(cfg: Config, s: State, a: Action): Option<State>
  {
    if s.phase.Finished? then None
    else if a.CancelOuter? then Some(s.(outerDone := true))
    else if s.phase.Starting? then StartPhase(cfg, s, a)
    else if a.StopNext? && |s.calls| < |s.svcs| then Some(StopStep(cfg, s, a.elapsed, a.error))
    else if a.Finish? && |s.calls| == |s.svcs| then Some(s.(phase := Finished))
    else None
  }

  function Exec(cfg: Config, s: State, actions: seq<Action>): Option<State>
    decreases actions
  {
    if actions == [] then Some(s) else
      var t := Next(cfg, s, actions[0]);
      if t.None? then None else Exec(cfg, t.value, actions[1..])
  }

  // ------------------------------------------------------------------
  // Invariant
  // ------------------------------------------------------------------

  function ClosureOf(v: Svc, i: nat): Option<nat>
  {
    if v.acquired then Some(i) else None
  }

  /** One component, stopped or not yet. */
  predicate SvcOk(v: Svc, i: nat, stopped: bool)
  {
    && v.cell.stopped == stopped
    && v.runs == (if stopped && v.acquired then 1 else 0)
    && match v.start {
       case Unspawned => v.cell.stopFunc.None? && !v.cell.ready && !v.acquired && v.watch.Off?
       case Connecting => v.cell.stopFunc.None? && !v.cell.ready && !v.acquired
       case Connected(stop) => v.cell.stopFunc.None? && !v.cell.ready && stop == ClosureOf(v, i)
       case HalfStarted(_) => false
       case Installed => v.cell.stopFunc == ClosureOf(v, i) && !v.cell.ready
       case Waiting => v.cell.stopFunc == ClosureOf(v, i) && v.cell.ready
       case Returning(_) => v.cell.stopFunc == ClosureOf(v, i)
       case Returned(_) => v.cell.stopFunc == ClosureOf(v, i)
       case Panicked => false
    }
  }

  /** The services from `k` on that acquired a resource, last registered first. */
  function Acquired(svcs: seq<Svc>, k: nat): seq<nat>
    requires k <= |svcs|
    decreases |svcs| - k
  {
    if k == |svcs| then [] else
      Acquired(svcs, k + 1) + (if svcs[k].acquired then [k] else [])
  }

  function FirstFailure(outcomes: seq<Option<Error>>): Option<Error>
  {
    if outcomes == [] then None else
      var before := FirstFailure(outcomes[..|outcomes| - 1]);
      if before.Some? then before else outcomes[|outcomes| - 1]
  }

  /** Neither goroutine of the service returned an error to the group. */
  predicate Clean(v: Svc)
  {
    && !(v.start.Returned? && v.start.result.Other?)
    && !(v.watch.Left? && v.watch.err.Some?)
  }

  /** The services are as the phase says. */
  predicate ServicesOk(s: State)
  {
    && |s.calls| <= |s.svcs| && s.spawned <= |s.svcs|
    && (s.phase.Starting? ==> s.calls == [])
    && (!s.phase.Starting? ==> s.spawned == |s.svcs|)
    && (s.phase.Finished? ==> |s.calls| == |s.svcs|)
    && (forall i :: 0 <= i < |s.svcs| ==> SvcOk(s.svcs[i], i, i >= |s.svcs| - |s.calls|))
    && (forall i :: 0 <= i < |s.svcs| && !s.phase.Starting? ==> Joinable(s.svcs[i]))
    && (forall i :: 0 <= i < |s.svcs| ==> (s.svcs[i].start.Unspawned? <==> s.spawned <= i))
  }

  /** The group's error, and what led to it. */
  predicate GroupOk(s: State)
  {
    && s.first == FirstFailure(s.outcomes)
    && (s.first.None? <==> forall i :: 0 <= i < |s.svcs| ==> Clean(s.svcs[i]))
  }

  /** The shutdown so far. */
  ghost predicate ShutdownOk(cfg: Config, s: State)
    requires |s.calls| <= |s.svcs|
  {
    && s.releases == Acquired(s.svcs, |s.svcs| - |s.calls|)
    && Paced(cfg.timeout, |s.svcs|, s.calls)
    && (s.outerAtJoin ==> s.outerDone)
    && ArrivalsOk(s.calls, s.outerDone, s.outerAtJoin)
  }

  /** A stop context is done on arrival only when the outer one is or the budget is
      nothing, and it is when the outer one was at the join or the budget is nothing. */
  predicate ArrivalsOk(calls: seq<StopCall>, outerDone: bool, outerAtJoin: bool)
  {
    forall j :: 0 <= j < |calls| ==>
      && (calls[j].doneOnArrival ==> outerDone || calls[j].budget == 0)
      && (outerAtJoin || calls[j].budget == 0 ==> calls[j].doneOnArrival)
  }

  ghost predicate Inv(cfg: Config, s: State)
  {
    ServicesOk(s) && GroupOk(s) && ShutdownOk(cfg, s)
  }

  // ------------------------------------------------------------------
  // Every step keeps it
  // ------------------------------------------------------------------

  /** Before anything is stopped, a start goroutine never sees `stopped`. */
  lemma StartStepOk(v: Svc, i: nat, done: bool, c: Choice)
    requires SvcOk(v, i, false) && StartStep(v, i, done, c).Some?
    ensures var w := StartStep(v, i, done, c).value;
            && SvcOk(w, i, false) && w.runs == v.runs && Clean(w) == Clean(v)
            && !w.start.Unspawned? && !v.start.Unspawned?
  {
  }

  /** The part of a state that the start phase changes at one service. */
  predicate Touched(s: State, t: State, i: nat)
  {
    && i < |s.svcs| && t.phase == s.phase && t.calls == s.calls && t.releases == s.releases
    && t.outerDone == s.outerDone && t.outerAtJoin == s.outerAtJoin
    && |t.svcs| == |s.svcs| && t.svcs == s.svcs[i := t.svcs[i]]
    && SvcOk(t.svcs[i], i, false)
    && (t.spawned == s.spawned || (i == s.spawned && t.spawned == i + 1))
    && (t.spawned == s.spawned ==> t.svcs[i].start.Unspawned? == s.svcs[i].start.Unspawned?)
    && (t.spawned != s.spawned ==> !t.svcs[i].start.Unspawned?)
    && GroupMoved(s, t, i)
  }

  /** The group's error after a step at service `i`. */
  predicate GroupMoved(s: State, t: State, i: nat)
    requires i < |s.svcs| && |t.svcs| == |s.svcs|
  {
    if |t.outcomes| == |s.outcomes| then
      t.outcomes == s.outcomes && t.first == s.first && Clean(t.svcs[i]) == Clean(s.svcs[i])
    else
      && t.outcomes != []
      && var err := t.outcomes[|t.outcomes| - 1];
      && t.outcomes == s.outcomes + [err]
      && t.first == (if s.first.None? then err else s.first)
      && (Clean(t.svcs[i]) <==> Clean(s.svcs[i]) && err.None?)
  }

  lemma SpawnTouches(cfg: Config, s: State)
    requires ServicesOk(s) && s.phase.Starting? && StartPhase(cfg, s, Spawn).Some?
    ensures Touched(s, StartPhase(cfg, s, Spawn).value, s.spawned)
  {
    assert SvcOk(s.svcs[s.spawned], s.spawned, false);
  }

  lemma StartTouches(cfg: Config, s: State, a: Action)
    requires a.StartMoves? || a.StartReturns?
    requires ServicesOk(s) && s.phase.Starting? && StartPhase(cfg, s, a).Some?
    ensures Touched(s, StartPhase(cfg, s, a).value, a.i)
  {
    var v := s.svcs[a.i];
    assert SvcOk(v, a.i, false);
    if a.StartMoves? {
      StartStepOk(v, a.i, GroupDone(s) || v.cancelled, a.choice);
      hide StartStep, SvcOk;
    } else {
      var err := Reported(a.i, v.start.result);
      assert StartPhase(cfg, s, a).value.outcomes == s.outcomes + [err];
    }
  }

  lemma WatchMovesTouch(cfg: Config, s: State, a: Action)
    requires a.WatchMoves? && ServicesOk(s) && s.phase.Starting? && StartPhase(cfg, s, a).Some?
    ensures Touched(s, StartPhase(cfg, s, a).value, a.i)
  {
    assert SvcOk(s.svcs[a.i], a.i, false);
    hide ServicesOk;
  }

  lemma WatchReturnsTouch(cfg: Config, s: State, a: Action)
    requires a.WatchReturns? && ServicesOk(s) && s.phase.Starting? && StartPhase(cfg, s, a).Some?
    ensures Touched(s, StartPhase(cfg, s, a).value, a.i)
  {
    assert SvcOk(s.svcs[a.i], a.i, false);
    assert StartPhase(cfg, s, a).value.outcomes == s.outcomes + [s.svcs[a.i].watch.err];
    hide ServicesOk;
  }

  lemma WatchTouches(cfg: Config, s: State, a: Action)
    requires a.WatchMoves? || a.WatchReturns?
    requires ServicesOk(s) && s.phase.Starting? && StartPhase(cfg, s, a).Some?
    ensures Touched(s, StartPhase(cfg, s, a).value, a.i)
  {
    hide ServicesOk, StartPhase, Touched;
    if a.WatchMoves? {
      WatchMovesTouch(cfg, s, a);
    } else {
      WatchReturnsTouch(cfg, s, a);
    }
  }

  lemma FirstFailureExtends(outcomes: seq<Option<Error>>, err: Option<Error>)
    ensures FirstFailure(outcomes + [err]) ==
              if FirstFailure(outcomes).Some? then FirstFailure(outcomes) else err
  {
    assert (outcomes + [err])[..|outcomes|] == outcomes;
  }

  lemma TouchedKeepsInv(cfg: Config, s: State, t: State, i: nat)
    requires Inv(cfg, s) && s.phase.Starting? && Touched(s, t, i)
    ensures Inv(cfg, t)
  {
    assert ServicesOk(t) by { hide SvcOk, Joinable, Clean; }
    assert ShutdownOk(cfg, t);
    hide SvcOk, ServicesOk, ShutdownOk, Clean;
    if |t.outcomes| != |s.outcomes| {
      FirstFailureExtends(s.outcomes, t.outcomes[|t.outcomes| - 1]);
    }
    assert forall j :: 0 <= j < |s.svcs| && j != i ==> t.svcs[j] == s.svcs[j];
  }

  lemma StartPhaseKeepsInv(cfg: Config, s: State, a: Action)
    requires Inv(cfg, s) && s.phase.Starting? && StartPhase(cfg, s, a).Some?
    ensures Inv(cfg, StartPhase(cfg, s, a).value)
  {
    match a
    case Spawn =>
      SpawnTouches(cfg, s);
      TouchedKeepsInv(cfg, s, StartPhase(cfg, s, a).value, s.spawned);
    case StartMoves(i, _) =>
      StartTouches(cfg, s, a);
      TouchedKeepsInv(cfg, s, StartPhase(cfg, s, a).value, i);
    case StartReturns(i) =>
      StartTouches(cfg, s, a);
      TouchedKeepsInv(cfg, s, StartPhase(cfg, s, a).value, i);
    case WatchMoves(i, _) =>
      WatchTouches(cfg, s, a);
      TouchedKeepsInv(cfg, s, StartPhase(cfg, s, a).value, i);
    case WatchReturns(i) =>
      WatchTouches(cfg, s, a);
      TouchedKeepsInv(cfg, s, StartPhase(cfg, s, a).value, i);
    case Join =>
  }

  lemma {:induction false} AcquiredSame(a: seq<Svc>, b: seq<Svc>, k: nat)
    requires k <= |a| == |b| && forall i :: k <= i < |a| ==> a[i].acquired == b[i].acquired
    ensures Acquired(a, k) == Acquired(b, k)
    decreases |a| - k
  {
    if k < |a| {
      AcquiredSame(a, b, k + 1);
    }
  }

  lemma StopKeepsServices(cfg: Config, s: State, elapsed: nat, error: Option<int>)
    requires ServicesOk(s) && s.phase.Stopping? && |s.calls| < |s.svcs|
    ensures var t := StopStep(cfg, s, elapsed, error);
            && ServicesOk(t)
            && (forall i :: 0 <= i < |s.svcs| ==>
                  Clean(t.svcs[i]) == Clean(s.svcs[i]) && t.svcs[i].acquired == s.svcs[i].acquired)
  {
    hide Share, Shutdown.Left;
    var k := |s.svcs| - 1 - |s.calls|;
    assert SvcOk(s.svcs[k], k, false) && Joinable(s.svcs[k]);
  }

  lemma StopKeepsReleases(cfg: Config, s: State, elapsed: nat, error: Option<int>)
    requires ServicesOk(s) && s.phase.Stopping? && |s.calls| < |s.svcs|
    requires s.releases == Acquired(s.svcs, |s.svcs| - |s.calls|)
    ensures var t := StopStep(cfg, s, elapsed, error);
            t.releases == Acquired(t.svcs, |t.svcs| - |t.calls|)
  {
    hide Share, Shutdown.Left, Acquired, Joinable, SvcOk, L.ToRun;
    var t := StopStep(cfg, s, elapsed, error);
    var k := |s.svcs| - 1 - |s.calls|;
    assert SvcOk(s.svcs[k], k, false) && Joinable(s.svcs[k]);
    AcquiredIsToRun(s.svcs[k], k);
    AcquiredSame(s.svcs, t.svcs, k + 1);
    AcquiredNext(t.svcs, k);
  }

  /** A service that has started has a closure to run exactly when it acquired one. */
  lemma AcquiredIsToRun(v: Svc, i: nat)
    requires SvcOk(v, i, false) && Joinable(v)
    ensures L.ToRun(v.cell).Some? <==> v.acquired
  {
  }

  lemma AcquiredNext(svcs: seq<Svc>, k: nat)
    requires k < |svcs|
    ensures Acquired(svcs, k) == Acquired(svcs, k + 1) + (if svcs[k].acquired then [k] else [])
  {
  }

  lemma ArrivalsExtend(calls: seq<StopCall>, call: StopCall, outerDone: bool, outerAtJoin: bool)
    requires ArrivalsOk(calls, outerDone, outerAtJoin) && (outerAtJoin ==> outerDone)
    requires call.doneOnArrival == (outerDone || call.budget == 0)
    ensures ArrivalsOk(calls + [call], outerDone, outerAtJoin)
  {
  }

  /** The call a step of the shutdown loop makes. */
  lemma StopStepCalls(cfg: Config, s: State, elapsed: nat, error: Option<int>)
    requires |s.calls| < |s.svcs|
    ensures var t := StopStep(cfg, s, elapsed, error);
            && |t.svcs| == |s.svcs| && t.outerDone == s.outerDone && t.outerAtJoin == s.outerAtJoin
            && |t.calls| == |s.calls| + 1
            && var call := t.calls[|s.calls|];
            && t.calls == s.calls + [call] && call.service == |s.svcs| - 1 - |s.calls|
            && call.budget == Share(Shutdown.Left(cfg.timeout, s.calls), |s.svcs| - |s.calls|)
            && call.doneOnArrival == (s.outerDone || call.budget == 0)
  {
    hide Share, Shutdown.Left, L.ToRun;
  }

  lemma StopKeepsShutdown(cfg: Config, s: State, elapsed: nat, error: Option<int>)
    requires ServicesOk(s) && ShutdownOk(cfg, s) && s.phase.Stopping? && |s.calls| < |s.svcs|
    ensures ShutdownOk(cfg, StopStep(cfg, s, elapsed, error))
  {
    hide Share, Shutdown.Left, Paced, ServicesOk, Acquired, ArrivalsOk, StopStep;
    var t := StopStep(cfg, s, elapsed, error);
    StopStepCalls(cfg, s, elapsed, error);
    StopKeepsReleases(cfg, s, elapsed, error);
    var call := t.calls[|s.calls|];
    PacedExtend(cfg.timeout, |s.svcs|, s.calls, call);
    ArrivalsExtend(s.calls, call, s.outerDone, s.outerAtJoin);
  }

  lemma StopKeepsGroup(cfg: Config, s: State, elapsed: nat, error: Option<int>)
    requires ServicesOk(s) && GroupOk(s) && s.phase.Stopping? && |s.calls| < |s.svcs|
    ensures GroupOk(StopStep(cfg, s, elapsed, error))
  {
    StopKeepsServices(cfg, s, elapsed, error);
    hide Clean, ServicesOk, Share, Shutdown.Left, L.ToRun, FirstFailure;
  }

  lemma StepKeepsInv(cfg: Config, s: State, a: Action)
    requires Inv(cfg, s) && Next(cfg, s, a).Some?
    ensures Inv(cfg, Next(cfg, s, a).value)
  {
    hide StartPhase, StopStep, SvcOk, Joinable, Clean, Paced, Acquired, FirstFailure;
    if a.CancelOuter? {
    } else if s.phase.Starting? {
      StartPhaseKeepsInv(cfg, s, a);
    } else if a.StopNext? {
      StopKeepsServices(cfg, s, a.elapsed, a.error);
      StopKeepsShutdown(cfg, s, a.elapsed, a.error);
      StopKeepsGroup(cfg, s, a.elapsed, a.error);
    }
  }

  lemma {:induction false} RunKeepsInv(cfg: Config, s: State, actions: seq<Action>)
    requires Inv(cfg, s) && Exec(cfg, s, actions).Some?
    ensures Inv(cfg, Exec(cfg, s, actions).value)
    decreases actions
  {
    hide Inv, Next;
    if actions != [] {
      StepKeepsInv(cfg, s, actions[0]);
      RunKeepsInv(cfg, Next(cfg, s, actions[0]).value, actions[1..]);
    }
  }

  lemma InitialInv(cfg: Config, s: State)
    requires Initial(s)
    ensures Inv(cfg, s)
  {
  }

  // ------------------------------------------------------------------
  // Theorems over every run
  // ------------------------------------------------------------------

  predicate Descending(s: seq<nat>)
  {
    forall i, j :: 0 <= i < j < |s| ==> s[i] > s[j]
  }

  lemma {:induction false} AcquiredMembers(svcs: seq<Svc>, k: nat, i: nat)
    requires k <= |svcs|
    ensures i in Acquired(svcs, k) <==> k <= i < |svcs| && svcs[i].acquired
    decreases |svcs| - k
  {
    if k < |svcs| {
      AcquiredMembers(svcs, k + 1, i);
    }
  }

  lemma {:induction false} AcquiredDescends(svcs: seq<Svc>, k: nat)
    requires k <= |svcs|
    ensures Descending(Acquired(svcs, k))
    ensures forall i: nat :: i in Acquired(svcs, k) <==> k <= i < |svcs| && svcs[i].acquired
    decreases |svcs| - k
  {
    forall i: nat
      ensures i in Acquired(svcs, k) <==> k <= i < |svcs| && svcs[i].acquired
    {
      AcquiredMembers(svcs, k, i);
    }
    if k < |svcs| {
      AcquiredStep(svcs, k);
    } else {
      assert Acquired(svcs, k) == [];
    }
  }

  lemma AcquiredStep(svcs: seq<Svc>, k: nat)
    requires k < |svcs|
    ensures Descending(Acquired(svcs, k))
    decreases |svcs| - k, 0
  {
    hide Acquired;
    AcquiredDescends(svcs, k + 1);
    AcquiredNext(svcs, k);
    var rest := Acquired(svcs, k + 1);
    forall j | 0 <= j < |rest|
      ensures rest[j] > k
    {
      assert rest[j] in rest;
    }
  }

  /** Under every interleaving of the start goroutines, the watchers, failures
      and cancellation: no `Start` finds itself already stopped or panics, and no
      stop closure runs before every `Start` and every watcher has returned. */
  lemma NothingStopsEarly(cfg: Config, s: State, actions: seq<Action>)
    requires Initial(s) && Exec(cfg, s, actions).Some?
    ensures var t := Exec(cfg, s, actions).value;
            && (forall i :: 0 <= i < |t.svcs| ==> !t.svcs[i].start.HalfStarted? && !t.svcs[i].start.Panicked?)
            && (t.releases != [] ==> forall i :: 0 <= i < |t.svcs| ==> Joinable(t.svcs[i]))
  {
    InitialInv(cfg, s);
    RunKeepsInv(cfg, s, actions);
    hide Exec;
    var t := Exec(cfg, s, actions).value;
    forall i | 0 <= i < |t.svcs|
      ensures !t.svcs[i].start.HalfStarted? && !t.svcs[i].start.Panicked?
    {
      assert SvcOk(t.svcs[i], i, i >= |t.svcs| - |t.calls|);
    }
  }

  /** In every complete run each acquired resource is released exactly once, in
      reverse registration order, and nothing else is released. */
  lemma ReleasedOnceInReverse(cfg: Config, s: State, actions: seq<Action>)
    requires Initial(s) && Exec(cfg, s, actions).Some? && Exec(cfg, s, actions).value.phase.Finished?
    ensures var t := Exec(cfg, s, actions).value;
            && Descending(t.releases)
            && (forall i :: i in t.releases <==> 0 <= i < |t.svcs| && t.svcs[i].acquired)
            && (forall i :: 0 <= i < |t.svcs| ==> t.svcs[i].runs == (if t.svcs[i].acquired then 1 else 0))
            && |t.calls| == |t.svcs|
            && (forall j :: 0 <= j < |t.calls| ==> t.calls[j].service == |t.svcs| - 1 - j)
  {
    InitialInv(cfg, s);
    RunKeepsInv(cfg, s, actions);
    hide Exec;
    var t := Exec(cfg, s, actions).value;
    AcquiredDescends(t.svcs, 0);
    forall i | 0 <= i < |t.svcs|
      ensures t.svcs[i].runs == (if t.svcs[i].acquired then 1 else 0)
    {
      assert SvcOk(t.svcs[i], i, true);
    }
  }

  datatype RunError = FromStart(error: Error) | FromStop(service: nat, code: int)

  function StopErrors(errs: seq<(nat, int)>): seq<RunError>
  {
    seq(|errs|, k requires 0 <= k < |errs| => FromStop(errs[k].0, errs[k].1))
  }

  /** What `Run` joins: the start error, then the shutdown errors in stop order. */
  function Joined(first: Option<Error>, calls: seq<StopCall>): seq<RunError>
  {
    (if first.Some? then [FromStart(first.value)] else []) + StopErrors(Errors(calls))
  }

  function RunErrors(s: State): seq<RunError>
  {
    Joined(s.first, s.calls)
  }

  lemma {:induction false} NoErrors(calls: seq<StopCall>)
    ensures Errors(calls) == [] <==> forall j :: 0 <= j < |calls| ==> calls[j].error.None?
  {
    if calls != [] {
      var init := calls[..|calls| - 1];
      NoErrors(init);
      assert forall j :: 0 <= j < |init| ==> init[j] == calls[j];
    }
  }

  /** Some call failed with this error of its service. */
  predicate FailedWith(calls: seq<StopCall>, e: (nat, int))
  {
    exists j :: 0 <= j < |calls| && calls[j].service == e.0 && calls[j].error == Some(e.1)
  }

  predicate LastFirst(errs: seq<(nat, int)>)
  {
    forall k, m :: 0 <= k < m < |errs| ==> errs[k].0 > errs[m].0
  }

  lemma FailedWithLast(calls: seq<StopCall>, e: (nat, int))
    requires calls != []
    ensures var last := calls[|calls| - 1];
            FailedWith(calls, e) <==> FailedWith(calls[..|calls| - 1], e) || (last.service == e.0 && last.error == Some(e.1))
  {
    var init := calls[..|calls| - 1];
    if FailedWith(calls, e) {
      var j :| 0 <= j < |calls| && calls[j].service == e.0 && calls[j].error == Some(e.1);
      if j < |init| {
        assert init[j] == calls[j];
      }
    }
    if FailedWith(init, e) {
      var j :| 0 <= j < |init| && init[j].service == e.0 && init[j].error == Some(e.1);
      assert calls[j] == init[j];
    }
  }

  lemma {:induction false} ErrorsOfCalls(calls: seq<StopCall>, e: (nat, int))
    ensures e in Errors(calls) <==> FailedWith(calls, e)
  {
    if calls == [] {
      assert Errors(calls) == [];
    } else {
      ErrorsOfCalls(calls[..|calls| - 1], e);
      FailedWithLast(calls, e);
      hide FailedWith;
    }
  }

  lemma {:induction false} ErrorsDescend(n: nat, calls: seq<StopCall>)
    requires |calls| <= n && forall j :: 0 <= j < |calls| ==> calls[j].service == n - 1 - j
    ensures LastFirst(Errors(calls)) && forall k :: 0 <= k < |Errors(calls)| ==> Errors(calls)[k].0 >= n - |calls|
  {
    if calls == [] {
      assert Errors(calls) == [];
    } else {
      var init := calls[..|calls| - 1];
      assert forall j :: 0 <= j < |init| ==> init[j] == calls[j];
      ErrorsDescend(n, init);
    }
  }

  /** `Run` returns nil exactly when the whole start phase was clean and no stop
      closure failed. */
  lemma RunReturnsNil(cfg: Config, s: State, actions: seq<Action>)
    requires Initial(s) && Exec(cfg, s, actions).Some? && Exec(cfg, s, actions).value.phase.Finished?
    ensures var t := Exec(cfg, s, actions).value;
            RunErrors(t) == [] <==>
              && (forall i :: 0 <= i < |t.svcs| ==> Clean(t.svcs[i]))
              && (forall j :: 0 <= j < |t.calls| ==> t.calls[j].error.None?)
  {
    InitialInv(cfg, s);
    RunKeepsInv(cfg, s, actions);
    hide Exec;
    NoErrors(Exec(cfg, s, actions).value.calls);
  }

  /** What `Run` joins: the start error first, if there was one, and then the errors of
      exactly the stop calls that failed, from the last registered service to the
      first. */
  lemma RunJoinsInOrder(cfg: Config, s: State, actions: seq<Action>)
    requires Initial(s) && Exec(cfg, s, actions).Some?
    ensures var t := Exec(cfg, s, actions).value; JoinedInOrder(RunErrors(t), t.first, t.calls)
  {
    InitialInv(cfg, s);
    RunKeepsInv(cfg, s, actions);
    var t := Exec(cfg, s, actions).value;
    hide Exec, ServicesOk, GroupOk, JoinedInOrder;
    assert Paced(cfg.timeout, |t.svcs|, t.calls);
    JoinsInOrder(|t.svcs|, t.first, t.calls);
  }

  /** The start error is first, and stop errors go from higher to lower services. */
  predicate Ordered(errs: seq<RunError>, first: Option<Error>)
  {
    && (forall k :: 0 <= k < |errs| ==> (errs[k].FromStart? <==> k == 0 && first.Some?))
    && (first.Some? ==> errs != [] && errs[0] == FromStart(first.value))
    && (forall k, m :: 0 <= k < m < |errs| && errs[k].FromStop? ==> errs[m].FromStop? && errs[k].service > errs[m].service)
  }

  ghost predicate JoinedInOrder(errs: seq<RunError>, first: Option<Error>, calls: seq<StopCall>)
  {
    && Ordered(errs, first)
    && (forall service: nat, code :: FromStop(service, code) in errs <==> FailedWith(calls, (service, code)))
  }

  lemma StopErrorsAt(errs: seq<(nat, int)>)
    ensures |StopErrors(errs)| == |errs|
    ensures forall k :: 0 <= k < |errs| ==> StopErrors(errs)[k] == FromStop(errs[k].0, errs[k].1)
    ensures forall service: nat, code :: FromStop(service, code) in StopErrors(errs) <==> (service, code) in errs
  {
    forall service: nat, code
      ensures FromStop(service, code) in StopErrors(errs) <==> (service, code) in errs
    {
      if (service, code) in errs {
        var k :| 0 <= k < |errs| && errs[k] == (service, code);
        assert StopErrors(errs)[k] == FromStop(service, code);
      }
    }
  }

  lemma JoinedMembers(first: Option<Error>, calls: seq<StopCall>, service: nat, code: int)
    ensures FromStop(service, code) in Joined(first, calls) <==> FailedWith(calls, (service, code))
  {
    StopErrorsAt(Errors(calls));
    ErrorsOfCalls(calls, (service, code));
    hide Errors, StopErrors, FailedWith;
  }

  lemma StopErrorsOrdered(stops: seq<(nat, int)>, errs: seq<RunError>)
    requires LastFirst(stops) && |errs| == |stops|
    requires forall k :: 0 <= k < |stops| ==> errs[k] == FromStop(stops[k].0, stops[k].1)
    ensures Ordered(errs, None)
  {
  }

  lemma StartErrorFirst(error: Error, errs: seq<RunError>)
    requires Ordered(errs, None)
    ensures Ordered([FromStart(error)] + errs, Some(error))
  {
    var all := [FromStart(error)] + errs;
    assert forall k :: 1 <= k < |all| ==> all[k] == errs[k - 1];
  }

  lemma JoinsOrdered(n: nat, first: Option<Error>, calls: seq<StopCall>)
    requires |calls| <= n && forall j :: 0 <= j < |calls| ==> calls[j].service == n - 1 - j
    ensures Ordered(Joined(first, calls), first)
  {
    hide Errors, StopErrors, Ordered;
    var errs := StopErrors(Errors(calls));
    ErrorsDescend(n, calls);
    StopErrorsAt(Errors(calls));
    StopErrorsOrdered(Errors(calls), errs);
    if first.Some? {
      StartErrorFirst(first.value, errs);
    } else {
      assert [] + errs == errs;
    }
  }

  lemma JoinsInOrder(n: nat, first: Option<Error>, calls: seq<StopCall>)
    requires |calls| <= n && forall j :: 0 <= j < |calls| ==> calls[j].service == n - 1 - j
    ensures JoinedInOrder(Joined(first, calls), first, calls)
  {
    hide Joined, Ordered, FailedWith;
    JoinsOrdered(n, first, calls);
    forall service: nat, code
      ensures FromStop(service, code) in Joined(first, calls) <==> FailedWith(calls, (service, code))
    {
      JoinedMembers(first, calls, service, code);
    }
  }

  /** Stop contexts derive from the outer context, not from the group's: a service
      failure alone leaves them live, while an outer cancellation that ended the
      start phase makes every one of them done on arrival. */
  lemma StopContexts(cfg: Config, s: State, actions: seq<Action>)
    requires Initial(s) && Exec(cfg, s, actions).Some?
    ensures var t := Exec(cfg, s, actions).value;
            && (!t.outerDone ==>
                  forall j :: 0 <= j < |t.calls| ==> (t.calls[j].doneOnArrival <==> t.calls[j].budget == 0))
            && (t.outerAtJoin ==> forall j :: 0 <= j < |t.calls| ==> t.calls[j].doneOnArrival)
  {
    InitialInv(cfg, s);
    RunKeepsInv(cfg, s, actions);
    hide Exec;
  }

  /** A run without outer cancellation, in which every service keeps to its
      budget: whatever failed at start, every `Stop` gets a live context with at
      least an equal share of the timeout, and shutdown finishes in time. */
  lemma FailureLeavesTimeToStop(cfg: Config, s: State, actions: seq<Action>)
    requires Initial(s) && Exec(cfg, s, actions).Some?
    requires !Exec(cfg, s, actions).value.outerDone && WithinBudget(Exec(cfg, s, actions).value.calls)
    requires cfg.timeout >= |s.svcs| >= 1
    ensures var t := Exec(cfg, s, actions).value;
            && Total(t.calls) <= cfg.timeout
            && forall j :: 0 <= j < |t.calls| ==>
                 !t.calls[j].doneOnArrival && t.calls[j].budget >= cfg.timeout / |s.svcs|
  {
    InitialInv(cfg, s);
    RunKeepsInv(cfg, s, actions);
    SameServices(cfg, s, actions);
    StopContexts(cfg, s, actions);
    hide Exec;
    FairShares(cfg.timeout, |s.svcs|, Exec(cfg, s, actions).value.calls);
  }

  lemma StepSameServices(cfg: Config, s: State, a: Action)
    requires Next(cfg, s, a).Some?
    ensures |Next(cfg, s, a).value.svcs| == |s.svcs|
  {
    hide StartStep, WatchStep, Share, Shutdown.Left;
  }

  lemma {:induction false} SameServices(cfg: Config, s: State, actions: seq<Action>)
    requires Exec(cfg, s, actions).Some?
    ensures |Exec(cfg, s, actions).value.svcs| == |s.svcs|
    decreases actions
  {
    hide Next;
    if actions != [] {
      StepSameServices(cfg, s, actions[0]);
      SameServices(cfg, Next(cfg, s, actions[0]).value, actions[1..]);
    }
  }

  // ------------------------------------------------------------------
  // What is reported follows from what happened
  // ------------------------------------------------------------------

  /** The failure of service `i`'s `Start` that the action is, if it is one. */
  function StartFailure(a: Action, i: nat): Option<Error>
  {
    if a.StartMoves? && a.i == i && (a.choice.ConnectFails? || a.choice.Ends?) && a.choice.result.Other?
    then Some(ServiceFailed(i, a.choice.result.code)) else None
  }

  /** The arm of service `i`'s watcher that the action is, if it reports an error. */
  function WatchFailure(a: Action, i: nat): Option<Error>
  {
    if !a.WatchMoves? || a.i != i then None
    else match a.arm
      case TimerArm => Some(StartDeadline(i))
      case ContextArm => Some(GroupContext)
      case ReadyArm => None
  }

  /** The error service `i`'s start goroutine has to report, by what has happened. */
  function StartSays(actions: seq<Action>, i: nat): Option<Error>
  {
    if actions == [] then None else
      var last := StartFailure(actions[|actions| - 1], i);
      if last.Some? then last else StartSays(actions[..|actions| - 1], i)
  }

  /** The error the watcher of service `i` has to report. */
  function WatchSays(actions: seq<Action>, i: nat): Option<Error>
  {
    if actions == [] then None else
      var last := WatchFailure(actions[|actions| - 1], i);
      if last.Some? then last else WatchSays(actions[..|actions| - 1], i)
  }

  /** What the group is told, goroutine by goroutine as they return. */
  function Told(actions: seq<Action>): seq<Option<Error>>
  {
    if actions == [] then [] else
      var before := actions[..|actions| - 1];
      match actions[|actions| - 1]
      case StartReturns(i) => Told(before) + [StartSays(before, i)]
      case WatchReturns(i) => Told(before) + [WatchSays(before, i)]
      case _ => Told(before)
  }

  /** The goroutines of service `i` hold what they have to report and nothing else, a
      resource is acquired exactly if `Connect` came back with a closure, and the service's
      context is cancelled exactly by its deadline or the return of its `Start`. */
  predicate SaysOk(v: Svc, i: nat, actions: seq<Action>)
  {
    && (match v.start
        case Returning(r) => Reported(i, r) == StartSays(actions, i)
        case Returned(r) => Reported(i, r) == StartSays(actions, i)
        case _ => StartSays(actions, i).None?)
    && (match v.watch
        case Leaving(err) => err == WatchSays(actions, i)
        case Left(err) => err == WatchSays(actions, i)
        case _ => WatchSays(actions, i).None?)
    && (v.acquired <==> StartMoves(i, ConnectOk(true)) in actions)
    && (v.start.Returned? <==> StartReturns(i) in actions)
    && (v.cancelled <==> WatchMoves(i, TimerArm) in actions || StartReturns(i) in actions)
  }

  lemma SaysLast(before: seq<Action>, a: Action, i: nat)
    ensures StartSays(before + [a], i) == if StartFailure(a, i).Some? then StartFailure(a, i) else StartSays(before, i)
    ensures WatchSays(before + [a], i) == if WatchFailure(a, i).Some? then WatchFailure(a, i) else WatchSays(before, i)
    ensures Told(before + [a]) ==
            if a.StartReturns? then Told(before) + [StartSays(before, a.i)]
            else if a.WatchReturns? then Told(before) + [WatchSays(before, a.i)] else Told(before)
    ensures forall x :: x in before + [a] <==> x in before || x == a
  {
    assert (before + [a])[..|before|] == before;
  }

  lemma StartStepSays(cfg: Config, s: State, a: Action, i: nat, before: seq<Action>)
    requires i < |s.svcs| && SvcOk(s.svcs[i], i, false) && SaysOk(s.svcs[i], i, before)
    requires a.StartMoves? && StartPhase(cfg, s, a).Some?
    ensures |StartPhase(cfg, s, a).value.svcs| == |s.svcs|
    ensures SaysOk(StartPhase(cfg, s, a).value.svcs[i], i, before + [a])
    ensures StartPhase(cfg, s, a).value.outcomes == s.outcomes
  {
    hide StartSays, WatchSays, Told;
    SaysLast(before, a, i);
  }

  lemma SpawnSays(cfg: Config, s: State, i: nat, before: seq<Action>)
    requires i < |s.svcs| && SaysOk(s.svcs[i], i, before) && StartPhase(cfg, s, Spawn).Some?
    requires s.spawned == i ==> s.svcs[i].start.Unspawned? && s.svcs[i].watch.Off?
    ensures var t := StartPhase(cfg, s, Spawn).value;
            |t.svcs| == |s.svcs| && SaysOk(t.svcs[i], i, before + [Spawn])
  {
    hide StartSays, WatchSays, Told;
    SaysLast(before, Spawn, i);
  }

  lemma StartReturnSays(cfg: Config, s: State, j: nat, i: nat, before: seq<Action>)
    requires i < |s.svcs| && SaysOk(s.svcs[i], i, before) && StartPhase(cfg, s, StartReturns(j)).Some?
    ensures var t := StartPhase(cfg, s, StartReturns(j)).value;
            |t.svcs| == |s.svcs| && SaysOk(t.svcs[i], i, before + [StartReturns(j)])
  {
    hide StartSays, WatchSays, Told, Reported, StartFailure;
    SaysLast(before, StartReturns(j), i);
    NoFailure(StartReturns(j), i);
  }

  lemma ReturnSays(cfg: Config, s: State, a: Action, i: nat, before: seq<Action>)
    requires i < |s.svcs| && SaysOk(s.svcs[i], i, before) && StartPhase(cfg, s, a).Some?
    requires a.WatchReturns? || a.Join?
    ensures var t := StartPhase(cfg, s, a).value; |t.svcs| == |s.svcs| && SaysOk(t.svcs[i], i, before + [a])
  {
    hide StartSays, WatchSays, Told, Joinable, Reported, StartFailure;
    SaysLast(before, a, i);
    NoFailure(a, i);
  }

  lemma NoFailure(a: Action, i: nat)
    requires !a.StartMoves?
    ensures StartFailure(a, i).None?
  {
  }

  lemma WatchMovesSays(cfg: Config, s: State, a: Action, i: nat, before: seq<Action>)
    requires i < |s.svcs| && SaysOk(s.svcs[i], i, before) && a.WatchMoves? && StartPhase(cfg, s, a).Some?
    ensures var t := StartPhase(cfg, s, a).value; |t.svcs| == |s.svcs| && SaysOk(t.svcs[i], i, before + [a])
  {
    hide StartSays, WatchSays, Told, Reported, GroupDone, StartFailure;
    SaysLast(before, a, i);
    NoFailure(a, i);
  }

  lemma StopStepSays(cfg: Config, s: State, elapsed: nat, error: Option<int>, i: nat, before: seq<Action>)
    requires i < |s.svcs| && |s.calls| < |s.svcs| && SaysOk(s.svcs[i], i, before)
    ensures var t := StopStep(cfg, s, elapsed, error);
            |t.svcs| == |s.svcs| && SaysOk(t.svcs[i], i, before + [StopNext(elapsed, error)])
  {
    hide StartSays, WatchSays, Told, Share, Shutdown.Left, L.ToRun;
    SaysLast(before, StopNext(elapsed, error), i);
  }

  lemma StepSays(cfg: Config, s: State, a: Action, i: nat, before: seq<Action>)
    requires ServicesOk(s) && Next(cfg, s, a).Some? && i < |s.svcs| && SaysOk(s.svcs[i], i, before)
    ensures var t := Next(cfg, s, a).value; |t.svcs| == |s.svcs| && SaysOk(t.svcs[i], i, before + [a])
  {
    assert SvcOk(s.svcs[i], i, i >= |s.svcs| - |s.calls|);
    assert s.phase.Starting? && s.spawned <= i ==> s.svcs[i].start.Unspawned? && s.svcs[i].watch.Off?;
    assert s.phase.Starting? ==> s.calls == [];
    hide StartPhase, StopStep, SaysOk, SvcOk, ServicesOk;
    if a.CancelOuter? || a.Finish? {
      QuietSays(s.svcs[i], i, before, a);
    }
    if a.CancelOuter? {
    } else if s.phase.Starting? {
      if a.StartMoves? {
        StartStepSays(cfg, s, a, i, before);
      } else if a.Spawn? {
        SpawnSays(cfg, s, i, before);
      } else if a.WatchMoves? {
        WatchMovesSays(cfg, s, a, i, before);
      } else if a.StartReturns? {
        StartReturnSays(cfg, s, a.i, i, before);
      } else {
        ReturnSays(cfg, s, a, i, before);
      }
    } else if a.StopNext? {
      StopStepSays(cfg, s, a.elapsed, a.error, i, before);
    }
  }

  lemma QuietSays(v: Svc, i: nat, before: seq<Action>, a: Action)
    requires SaysOk(v, i, before) && (a.CancelOuter? || a.Finish?)
    ensures SaysOk(v, i, before + [a])
  {
    hide StartSays, WatchSays, Told;
    SaysLast(before, a, i);
  }

  /** What a step of the start phase hands to the group. */
  function Handed(s: State, a: Action): seq<Option<Error>>
  {
    if a.StartReturns? && a.i < |s.svcs| && s.svcs[a.i].start.Returning? then [Reported(a.i, s.svcs[a.i].start.result)]
    else if a.WatchReturns? && a.i < |s.svcs| && s.svcs[a.i].watch.Leaving? then [s.svcs[a.i].watch.err]
    else []
  }

  lemma StartPhaseHands(cfg: Config, s: State, a: Action)
    requires StartPhase(cfg, s, a).Some?
    ensures StartPhase(cfg, s, a).value.outcomes == s.outcomes + Handed(s, a)
    ensures StartPhase(cfg, s, a).value.outerDone == s.outerDone
    ensures a.StartReturns? ==> a.i < |s.svcs| && s.svcs[a.i].start.Returning?
    ensures a.WatchReturns? ==> a.i < |s.svcs| && s.svcs[a.i].watch.Leaving?
  {
    hide StartStep, WatchStep, Joinable, Reported;
    assert s.outcomes + [] == s.outcomes;
  }

  lemma StepHands(cfg: Config, s: State, a: Action)
    requires Next(cfg, s, a).Some?
    ensures Next(cfg, s, a).value.outerDone <==> s.outerDone || a.CancelOuter?
    ensures (a.StartReturns? || a.WatchReturns?) ==> Handed(s, a) != []
    ensures Next(cfg, s, a).value.outcomes == s.outcomes + Handed(s, a)
  {
    hide StartPhase, Share, Shutdown.Left, L.ToRun, Reported;
    assert s.outcomes + [] == s.outcomes;
    if !a.CancelOuter? && s.phase.Starting? {
      StartPhaseHands(cfg, s, a);
    }
  }

  lemma HandedHasService(s: State, a: Action)
    requires (a.StartReturns? || a.WatchReturns?) && Handed(s, a) != []
    ensures a.i < |s.svcs|
  {
  }

  lemma NothingHanded(s: State, a: Action)
    requires !a.StartReturns? && !a.WatchReturns?
    ensures Handed(s, a) == [] && s.outcomes + Handed(s, a) == s.outcomes
  {
  }

  /** What a goroutine hands to the group is what it has to report. */
  lemma HandedIsSaid(s: State, a: Action, before: seq<Action>)
    requires (a.StartReturns? || a.WatchReturns?) && Handed(s, a) != [] && SaysOk(s.svcs[a.i], a.i, before)
    ensures Handed(s, a) == [if a.StartReturns? then StartSays(before, a.i) else WatchSays(before, a.i)]
  {
    hide StartSays, WatchSays, Reported;
  }

  lemma {:induction false} ExecPrefix(cfg: Config, s: State, actions: seq<Action>)
    requires actions != [] && Exec(cfg, s, actions).Some?
    ensures var init := actions[..|actions| - 1];
            Exec(cfg, s, init).Some? && Exec(cfg, s, actions) == Next(cfg, Exec(cfg, s, init).value, actions[|actions| - 1])
    decreases actions
  {
    hide Next;
    if |actions| == 1 {
      assert actions[1..] == [] && actions[..0] == [];
    } else {
      var rest := actions[1..];
      assert rest[..|rest| - 1] == actions[..|actions| - 1][1..];
      ExecPrefix(cfg, Next(cfg, s, actions[0]).value, rest);
    }
  }

  /** Everything recorded so far is what has happened. */
  predicate RecordsOk(t: State, actions: seq<Action>)
  {
    && t.outcomes == Told(actions) && (t.outerDone <==> CancelOuter in actions)
    && (forall i :: 0 <= i < |t.svcs| ==> SaysOk(t.svcs[i], i, actions))
  }

  lemma StepRecords(cfg: Config, s: State, a: Action, before: seq<Action>)
    requires ServicesOk(s) && Next(cfg, s, a).Some? && RecordsOk(s, before)
    ensures |Next(cfg, s, a).value.svcs| == |s.svcs| && RecordsOk(Next(cfg, s, a).value, before + [a])
  {
    hide Next, SaysOk, Told, ServicesOk, Handed, StartSays, WatchSays;
    var t := Next(cfg, s, a).value;
    StepHands(cfg, s, a);
    SaysLast(before, a, 0);
    if a.StartReturns? || a.WatchReturns? {
      HandedHasService(s, a);
      HandedIsSaid(s, a, before);
    } else {
      NothingHanded(s, a);
    }
    StepSizes(cfg, s, a);
    forall i | 0 <= i < |s.svcs|
      ensures SaysOk(t.svcs[i], i, before + [a])
    {
      StepSays(cfg, s, a, i, before);
    }
  }

  lemma NothingRecorded(cfg: Config, s: State)
    requires Initial(s)
    ensures Exec(cfg, s, []) == Some(s) && RecordsOk(s, [])
  {
  }

  lemma {:induction false} RunRecords(cfg: Config, s: State, actions: seq<Action>)
    requires Initial(s) && Exec(cfg, s, actions).Some?
    ensures |Exec(cfg, s, actions).value.svcs| == |s.svcs| && RecordsOk(Exec(cfg, s, actions).value, actions)
    decreases actions
  {
    hide Exec, Next, RecordsOk, Inv, ServicesOk, Initial;
    if actions == [] {
      NothingRecorded(cfg, s);
    } else {
      ExecPrefix(cfg, s, actions);
      var init, last := actions[..|actions| - 1], actions[|actions| - 1];
      var u := Exec(cfg, s, init).value;
      RunRecords(cfg, s, init);
      InitialInv(cfg, s);
      RunKeepsInv(cfg, s, init);
      InvServices(cfg, u);
      StepRecords(cfg, u, last, init);
      assert init + [last] == actions;
    }
  }

  lemma RunSays(cfg: Config, s: State, actions: seq<Action>)
    requires Initial(s) && Exec(cfg, s, actions).Some?
    ensures var t := Exec(cfg, s, actions).value;
            && |t.svcs| == |s.svcs| && t.outcomes == Told(actions) && (t.outerDone <==> CancelOuter in actions)
            && (forall i :: 0 <= i < |t.svcs| ==> SaysOk(t.svcs[i], i, actions))
  {
    hide Exec, Told, SaysOk;
    RunRecords(cfg, s, actions);
  }

  lemma StepSizes(cfg: Config, s: State, a: Action)
    requires Next(cfg, s, a).Some?
    ensures |Next(cfg, s, a).value.svcs| == |s.svcs|
  {
    hide StartStep, WatchStep, Joinable, Share, Shutdown.Left, L.ToRun;
  }

  /** The action makes a goroutine of the group return an error. */
  predicate Trouble(a: Action)
  {
    || (a.WatchMoves? && !a.arm.ReadyArm?)
    || (a.StartMoves? && ((a.choice.ConnectFails? || a.choice.Ends?) && a.choice.result.Other?))
  }

  lemma {:induction false} NothingSaid(actions: seq<Action>, i: nat)
    requires forall a :: a in actions ==> !Trouble(a)
    ensures StartSays(actions, i).None? && WatchSays(actions, i).None?
  {
    if actions != [] {
      assert actions[|actions| - 1] in actions;
      NothingSaid(actions[..|actions| - 1], i);
    }
  }

  /** The start error, in terms of what happened and of nothing the runner wrote down:
      the group was told, in this order, by every start goroutine the failure of its
      `Start` and by every watcher its deadline or the group's context, and the start
      error is the first of these. */
  lemma StartErrorIsFirstFailure(cfg: Config, s: State, actions: seq<Action>)
    requires Initial(s) && Exec(cfg, s, actions).Some?
    ensures var t := Exec(cfg, s, actions).value;
            var told := Told(actions);
            && (t.first.None? <==> forall k :: 0 <= k < |told| ==> told[k].None?)
            && (t.first.Some? ==>
                  exists k :: 0 <= k < |told| && told[k] == t.first && forall j :: 0 <= j < k ==> told[j].None?)
  {
    InitialInv(cfg, s);
    RunKeepsInv(cfg, s, actions);
    RunSays(cfg, s, actions);
    hide Exec;
    FirstIsFirst(Told(actions));
  }

  lemma {:induction false} FirstIsFirst(outcomes: seq<Option<Error>>)
    ensures var first := FirstFailure(outcomes);
            && (first.None? <==> forall k :: 0 <= k < |outcomes| ==> outcomes[k].None?)
            && (first.Some? ==>
                  exists k :: 0 <= k < |outcomes| && outcomes[k] == first && forall j :: 0 <= j < k ==> outcomes[j].None?)
  {
    if outcomes != [] {
      var init := outcomes[..|outcomes| - 1];
      FirstIsFirst(init);
      assert forall k :: 0 <= k < |init| ==> init[k] == outcomes[k];
      if FirstFailure(init).Some? {
        var k :| 0 <= k < |init| && init[k] == FirstFailure(init) && forall j :: 0 <= j < k ==> init[j].None?;
        assert outcomes[k] == FirstFailure(outcomes);
      }
    }
  }

  /** A service whose goroutines are back is clean exactly when it had nothing to report. */
  lemma CleanIffSilent(v: Svc, i: nat, actions: seq<Action>)
    requires SaysOk(v, i, actions) && Joinable(v)
    ensures Clean(v) <==> StartSays(actions, i).None? && WatchSays(actions, i).None?
  {
    hide StartSays, WatchSays;
  }

  lemma JoinedFacts(cfg: Config, t: State)
    requires Inv(cfg, t) && !t.phase.Starting?
    ensures forall i :: 0 <= i < |t.svcs| ==> Joinable(t.svcs[i])
    ensures t.first.None? <==> forall i :: 0 <= i < |t.svcs| ==> Clean(t.svcs[i])
  {
    hide SvcOk, Joinable, Clean, ShutdownOk;
  }

  /** Exactly when the start phase ends without an error: no `Start` failed with anything
      but Canceled, no start deadline expired, and no watcher saw the group's context. */
  lemma CleanStartIff(cfg: Config, s: State, actions: seq<Action>)
    requires Initial(s) && Exec(cfg, s, actions).Some? && !Exec(cfg, s, actions).value.phase.Starting?
    ensures Exec(cfg, s, actions).value.first.None? <==> forall a :: a in actions ==> !Trouble(a)
  {
    hide Exec, Inv, SaysOk, Joinable, Clean, Trouble, Initial, StartSays, WatchSays, Told;
    var t := Exec(cfg, s, actions).value;
    InitialInv(cfg, s);
    RunKeepsInv(cfg, s, actions);
    JoinedFacts(cfg, t);
    RunSays(cfg, s, actions);
    if forall a :: a in actions ==> !Trouble(a) {
      forall i | 0 <= i < |t.svcs|
        ensures Clean(t.svcs[i])
      {
        NothingSaid(actions, i);
        CleanIffSilent(t.svcs[i], i, actions);
      }
    } else {
      var a :| a in actions && Trouble(a);
      TroubleMakers(a);
      TroubleIsSaid(actions, a);
      TroubleHasService(cfg, s, actions, a);
      CleanIffSilent(t.svcs[a.i], a.i, actions);
    }
  }

  lemma TroubleMakers(a: Action)
    requires Trouble(a)
    ensures a.StartMoves? || a.WatchMoves?
  {
  }

  lemma {:induction false} TroubleIsSaid(actions: seq<Action>, a: Action)
    requires a in actions && Trouble(a)
    ensures a.StartMoves? ==> StartSays(actions, a.i).Some?
    ensures a.WatchMoves? ==> WatchSays(actions, a.i).Some?
  {
    var init, last := actions[..|actions| - 1], actions[|actions| - 1];
    if last != a {
      assert a in init;
      TroubleIsSaid(init, a);
    }
  }

  lemma {:induction false} TroubleHasService(cfg: Config, s: State, actions: seq<Action>, a: Action)
    requires Exec(cfg, s, actions).Some? && a in actions && (a.StartMoves? || a.WatchMoves?)
    ensures a.i < |s.svcs| && |Exec(cfg, s, actions).value.svcs| == |s.svcs|
    decreases actions
  {
    StepSizes(cfg, s, actions[0]);
    if actions[0] == a {
      SameServices(cfg, s, actions);
    } else {
      hide Next;
      assert a in actions[1..];
      TroubleHasService(cfg, Next(cfg, s, actions[0]).value, actions[1..], a);
    }
  }

  // ------------------------------------------------------------------
  // Stop errors follow from what the closures returned
  // ------------------------------------------------------------------

  /** What the environment decided for each iteration of the shutdown loop. */
  function Stops(actions: seq<Action>): seq<(nat, Option<int>)>
  {
    if actions == [] then [] else
      var before, last := actions[..|actions| - 1], actions[|actions| - 1];
      Stops(before) + (if last.StopNext? then [(last.elapsed, last.error)] else [])
  }

  /** Each call took the time it took, and returned what its closure did, when there was
      a closure to run. */
  predicate CallsOk(s: State, stops: seq<(nat, Option<int>)>)
  {
    && |s.calls| == |stops| <= |s.svcs|
    && forall j :: 0 <= j < |s.calls| ==>
         && s.calls[j].elapsed == stops[j].0
         && s.calls[j].error == (if s.svcs[|s.svcs| - 1 - j].acquired then stops[j].1 else None)
  }

  lemma StopCallsOk(cfg: Config, s: State, elapsed: nat, error: Option<int>, stops: seq<(nat, Option<int>)>)
    requires ServicesOk(s) && s.phase.Stopping? && |s.calls| < |s.svcs| && CallsOk(s, stops)
    ensures CallsOk(StopStep(cfg, s, elapsed, error), stops + [(elapsed, error)])
  {
    var k := |s.svcs| - 1 - |s.calls|;
    assert SvcOk(s.svcs[k], k, false) && Joinable(s.svcs[k]);
    AcquiredIsToRun(s.svcs[k], k);
    hide Share, Shutdown.Left, L.ToRun, SvcOk, Joinable, ServicesOk;
  }

  lemma StepCallsOk(cfg: Config, s: State, a: Action, stops: seq<(nat, Option<int>)>)
    requires ServicesOk(s) && Next(cfg, s, a).Some? && CallsOk(s, stops)
    ensures CallsOk(Next(cfg, s, a).value, stops + (if a.StopNext? then [(a.elapsed, a.error)] else []))
  {
    assert s.phase.Starting? ==> s.calls == [];
    if !s.phase.Starting? && a.StopNext? {
      StopCallsOk(cfg, s, a.elapsed, a.error, stops);
    } else {
      StepSizes(cfg, s, a);
      assert stops + [] == stops;
    }
    hide StopStep, StartStep, WatchStep, SvcOk, Joinable;
  }

  lemma {:induction false} RunCallsOk(cfg: Config, s: State, actions: seq<Action>)
    requires Initial(s) && Exec(cfg, s, actions).Some?
    ensures CallsOk(Exec(cfg, s, actions).value, Stops(actions))
    decreases actions
  {
    if actions != [] {
      ExecPrefix(cfg, s, actions);
      var init, last := actions[..|actions| - 1], actions[|actions| - 1];
      InitialInv(cfg, s);
      hide Exec, Next, CallsOk, Inv;
      RunCallsOk(cfg, s, init);
      RunKeepsInv(cfg, s, init);
      InvServices(cfg, Exec(cfg, s, init).value);
      StepCallsOk(cfg, Exec(cfg, s, init).value, last, Stops(init));
    }
  }

  /** The stop errors of a run, in terms of what happened: service `i` is reported with
      `code` exactly when its `Connect` came back with a closure and the shutdown loop,
      which reaches it as its `n - 1 - i`th, got `code` from it. */
  lemma StopErrorsFollow(cfg: Config, s: State, actions: seq<Action>, i: nat, code: int)
    requires Initial(s) && Exec(cfg, s, actions).Some? && i < |s.svcs|
    ensures var errs := RunErrors(Exec(cfg, s, actions).value);
            var stops := Stops(actions);
            var turn := |s.svcs| - 1 - i;
            FromStop(i, code) in errs <==>
              StartMoves(i, ConnectOk(true)) in actions && turn < |stops| && stops[turn].1 == Some(code)
  {
    hide Exec, RunErrors, Stops, CallsOk, SaysOk, FailedWith, Inv;
    var t := Exec(cfg, s, actions).value;
    RunJoinsInOrder(cfg, s, actions);
    RunSays(cfg, s, actions);
    RunCallsOk(cfg, s, actions);
    InitialInv(cfg, s);
    RunKeepsInv(cfg, s, actions);
    InvPaced(cfg, t);
    FailedInTurn(t, Stops(actions), i, code);
    AcquiredByActions(t.svcs[i], i, actions);
  }

  lemma InvPaced(cfg: Config, s: State)
    requires Inv(cfg, s)
    ensures |s.calls| <= |s.svcs| && forall j :: 0 <= j < |s.calls| ==> s.calls[j].service == |s.svcs| - 1 - j
  {
    assert Paced(cfg.timeout, |s.svcs|, s.calls);
  }

  lemma AcquiredByActions(v: Svc, i: nat, actions: seq<Action>)
    requires SaysOk(v, i, actions)
    ensures v.acquired <==> StartMoves(i, ConnectOk(true)) in actions
  {
  }

  lemma FailedInTurn(t: State, stops: seq<(nat, Option<int>)>, i: nat, code: int)
    requires CallsOk(t, stops) && i < |t.svcs|
    requires forall j :: 0 <= j < |t.calls| ==> t.calls[j].service == |t.svcs| - 1 - j
    ensures var turn := |t.svcs| - 1 - i;
            FailedWith(t.calls, (i, code)) <==> t.svcs[i].acquired && turn < |stops| && stops[turn].1 == Some(code)
  {
    var turn := |t.svcs| - 1 - i;
    if turn < |stops| {
      assert t.calls[turn].service == i;
    }
  }

  // ------------------------------------------------------------------
  // Watchers, and when services return
  // ------------------------------------------------------------------

  /** A service has a watcher exactly when deadlines are on, it is Readyable, and it has
      been spawned. */
  predicate WatchersOk(cfg: Config, s: State)
  {
    forall i :: 0 <= i < |s.svcs| ==>
      (!s.svcs[i].watch.Off? <==> cfg.startDeadline && s.svcs[i].readyable && i < s.spawned)
  }

  lemma StartStepWatch(v: Svc, i: nat, done: bool, c: Choice)
    requires StartStep(v, i, done, c).Some?
    ensures var w := StartStep(v, i, done, c).value; w.watch == v.watch && w.readyable == v.readyable
  {
    hide L.Install;
  }

  lemma WatchStepWatch(v: Svc, i: nat, done: bool, arm: Arm)
    requires WatchStep(v, i, done, arm).Some?
    ensures var w := WatchStep(v, i, done, arm).value; !w.watch.Off? && !v.watch.Off? && w.readyable == v.readyable
  {
  }

  /** Whether a service is watched changes only when it is spawned. */
  lemma StartPhaseWatch(cfg: Config, s: State, a: Action, i: nat)
    requires StartPhase(cfg, s, a).Some? && i < |s.svcs|
    ensures var t := StartPhase(cfg, s, a).value;
            && |t.svcs| == |s.svcs| && t.svcs[i].readyable == s.svcs[i].readyable
            && t.spawned == s.spawned + (if a.Spawn? then 1 else 0)
            && (t.svcs[i].watch.Off? <==>
                  if a.Spawn? && i == s.spawned then !cfg.startDeadline || !s.svcs[i].readyable else s.svcs[i].watch.Off?)
  {
    hide Joinable, Reported, GroupDone, StartStep, WatchStep;
    if a.StartMoves? {
      StartStepWatch(s.svcs[a.i], a.i, GroupDone(s) || s.svcs[a.i].cancelled, a.choice);
    } else if a.WatchMoves? {
      WatchStepWatch(s.svcs[a.i], a.i, GroupDone(s), a.arm);
    }
  }

  lemma StopWatch(cfg: Config, s: State, elapsed: nat, error: Option<int>, i: nat)
    requires |s.calls| < |s.svcs| && i < |s.svcs|
    ensures var t := StopStep(cfg, s, elapsed, error);
            && |t.svcs| == |s.svcs| && t.spawned == s.spawned
            && t.svcs[i].readyable == s.svcs[i].readyable && t.svcs[i].watch == s.svcs[i].watch
  {
    hide Share, Shutdown.Left, L.ToRun;
  }

  lemma StepKeepsWatchers(cfg: Config, s: State, a: Action)
    requires Next(cfg, s, a).Some? && WatchersOk(cfg, s)
    ensures WatchersOk(cfg, Next(cfg, s, a).value)
  {
    hide StartPhase, StopStep;
    StepSizes(cfg, s, a);
    var t := Next(cfg, s, a).value;
    forall i | 0 <= i < |s.svcs|
      ensures !t.svcs[i].watch.Off? <==> cfg.startDeadline && t.svcs[i].readyable && i < t.spawned
    {
      if !a.CancelOuter? && s.phase.Starting? {
        StartPhaseWatch(cfg, s, a, i);
      } else if a.StopNext? {
        StopWatch(cfg, s, a.elapsed, a.error, i);
      }
    }
  }

  lemma {:induction false} RunKeepsWatchers(cfg: Config, s: State, actions: seq<Action>)
    requires WatchersOk(cfg, s) && Exec(cfg, s, actions).Some?
    ensures WatchersOk(cfg, Exec(cfg, s, actions).value)
    decreases actions
  {
    hide Next, WatchersOk;
    if actions != [] {
      StepKeepsWatchers(cfg, s, actions[0]);
      RunKeepsWatchers(cfg, Next(cfg, s, actions[0]).value, actions[1..]);
    }
  }

  /** In every run exactly the services that should be watched are. */
  lemma WatchersAreThere(cfg: Config, s: State, actions: seq<Action>, i: nat)
    requires Initial(s) && Exec(cfg, s, actions).Some? && i < |Exec(cfg, s, actions).value.svcs|
    ensures var t := Exec(cfg, s, actions).value;
            t.svcs[i].watch.Off? <==> !cfg.startDeadline || !t.svcs[i].readyable || i >= t.spawned
  {
    RunKeepsWatchers(cfg, s, actions);
    hide Exec;
  }

  /** The group's context is done, by what happened. */
  predicate ToldToStop(actions: seq<Action>)
  {
    CancelOuter in actions || exists k :: 0 <= k < |Told(actions)| && Told(actions)[k].Some?
  }

  lemma GroupDoneIff(cfg: Config, s: State, actions: seq<Action>)
    requires Initial(s) && Exec(cfg, s, actions).Some?
    ensures GroupDone(Exec(cfg, s, actions).value) <==> ToldToStop(actions)
  {
    StartErrorIsFirstFailure(cfg, s, actions);
    RunSays(cfg, s, actions);
    hide Exec, Told;
  }

  lemma CanReturn(cfg: Config, t: State, i: nat, r: StartResult)
    requires t.phase.Starting? && i < |t.svcs| && t.svcs[i].start.Waiting? && !r.Nil?
    ensures Next(cfg, t, StartMoves(i, Ends(r))).Some? <==> GroupDone(t) || t.svcs[i].cancelled
  {
    hide GroupDone;
  }

  lemma CanSee(cfg: Config, t: State, i: nat)
    requires t.phase.Starting? && i < |t.svcs| && t.svcs[i].watch.Watching?
    ensures Next(cfg, t, WatchMoves(i, TimerArm)).Some?
    ensures Next(cfg, t, WatchMoves(i, ReadyArm)).Some? <==> t.svcs[i].cell.ready
    ensures Next(cfg, t, WatchMoves(i, ContextArm)).Some? <==> GroupDone(t)
  {
    hide GroupDone;
  }

  /** Exactly when a service that is up can return, in every run: after the outer
      cancellation, an error reported to the group, or its own deadline. */
  lemma WaitingReturnsIff(cfg: Config, s: State, actions: seq<Action>, i: nat, r: StartResult)
    requires Initial(s) && Exec(cfg, s, actions).Some? && i < |Exec(cfg, s, actions).value.svcs| && !r.Nil?
    requires var t := Exec(cfg, s, actions).value; t.phase.Starting? && t.svcs[i].start.Waiting?
    ensures Next(cfg, Exec(cfg, s, actions).value, StartMoves(i, Ends(r))).Some? <==>
            ToldToStop(actions) || WatchMoves(i, TimerArm) in actions
  {
    hide Exec, Next, ToldToStop, GroupDone, StartSays, WatchSays;
    GroupDoneIff(cfg, s, actions);
    RunSays(cfg, s, actions);
    var t := Exec(cfg, s, actions).value;
    CanReturn(cfg, t, i, r);
    assert SaysOk(t.svcs[i], i, actions);
  }

  /** What a watcher that is watching can see, in every run: its timer always, readiness
      exactly when that is signalled, the group's context exactly when that is done. */
  lemma WatcherSeesIff(cfg: Config, s: State, actions: seq<Action>, i: nat)
    requires Initial(s) && Exec(cfg, s, actions).Some? && i < |Exec(cfg, s, actions).value.svcs|
    requires var t := Exec(cfg, s, actions).value; t.phase.Starting? && t.svcs[i].watch.Watching?
    ensures var t := Exec(cfg, s, actions).value;
            && Next(cfg, t, WatchMoves(i, TimerArm)).Some?
            && (Next(cfg, t, WatchMoves(i, ReadyArm)).Some? <==> t.svcs[i].cell.ready)
            && (Next(cfg, t, WatchMoves(i, ContextArm)).Some? <==> ToldToStop(actions))
  {
    hide Exec, Next, ToldToStop, GroupDone;
    GroupDoneIff(cfg, s, actions);
    CanSee(cfg, Exec(cfg, s, actions).value, i);
  }

  /** Nothing has told a service that is up to return. */
  predicate Undisturbed(s: State)
  {
    !GroupDone(s) && forall i :: 0 <= i < |s.svcs| ==> s.svcs[i].cancelled ==> s.svcs[i].start.Returned?
  }

  lemma StepStaysUndisturbed(cfg: Config, s: State, a: Action, before: seq<Action>)
    requires ServicesOk(s) && Undisturbed(s) && Next(cfg, s, a).Some? && !a.CancelOuter? && !Trouble(a)
    requires forall i :: 0 <= i < |s.svcs| ==> SaysOk(s.svcs[i], i, before)
    requires forall x :: x in before ==> !Trouble(x)
    ensures Undisturbed(Next(cfg, s, a).value)
    ensures !(a.StartMoves? && a.choice.Ends?)
  {
    if (a.StartMoves? || a.StartReturns? || a.WatchReturns?) && a.i < |s.svcs| {
      NothingSaid(before, a.i);
      assert SaysOk(s.svcs[a.i], a.i, before);
      assert SvcOk(s.svcs[a.i], a.i, a.i >= |s.svcs| - |s.calls|);
    }
    StepSizes(cfg, s, a);
    hide StartSays, WatchSays, Joinable, Share, Shutdown.Left, L.ToRun, L.Install, SaysOk, ServicesOk;
  }

  /** Services stay up until told otherwise: in every run without an outer cancellation
      and without trouble, no `Start` that is waiting returns. */
  lemma {:induction false} UpUntilTold(cfg: Config, s: State, actions: seq<Action>)
    requires Initial(s) && Exec(cfg, s, actions).Some?
    requires CancelOuter !in actions && forall a :: a in actions ==> !Trouble(a)
    ensures Undisturbed(Exec(cfg, s, actions).value)
    ensures forall i, r :: StartMoves(i, Ends(r)) !in actions
    decreases actions
  {
    if actions != [] {
      ExecPrefix(cfg, s, actions);
      var init, last := actions[..|actions| - 1], actions[|actions| - 1];
      assert last in actions && forall a :: a in actions <==> a in init || a == last;
      InitialInv(cfg, s);
      hide Exec, Next, Undisturbed, Inv, SaysOk, Trouble;
      UpUntilTold(cfg, s, init);
      RunKeepsInv(cfg, s, init);
      RunSays(cfg, s, init);
      InvServices(cfg, Exec(cfg, s, init).value);
      StepStaysUndisturbed(cfg, Exec(cfg, s, init).value, last, init);
    }
  }

  // ------------------------------------------------------------------
  // Every run can be completed
  // ------------------------------------------------------------------

  /** How much the goroutines of a service still have to do. */
  function Remaining(v: Svc): nat
  {
    (match v.start
     case Unspawned => 9
     case Connecting => 6
     case Connected(_) => 5
     case HalfStarted(_) => 4
     case Installed => 4
     case Waiting => 3
     case Returning(_) => 1
     case _ => 0)
    + (match v.watch case Watching => 2 case Leaving(_) => 1 case _ => 0)
  }

  function Work(svcs: seq<Svc>): nat
  {
    if svcs == [] then 0 else Work(svcs[..|svcs| - 1]) + Remaining(svcs[|svcs| - 1])
  }

  lemma {:induction false} WorkShrinks(svcs: seq<Svc>, i: nat, v: Svc)
    requires i < |svcs| && Remaining(v) < Remaining(svcs[i])
    ensures Work(svcs[i := v]) < Work(svcs)
  {
    hide Remaining;
    var n := |svcs| - 1;
    if i == n {
      assert svcs[i := v][..n] == svcs[..n];
    } else {
      assert svcs[i := v][..n] == svcs[..n][i := v];
      WorkShrinks(svcs[..n], i, v);
    }
  }

  /** The next thing a service that has been spawned can do once it is told to stop. */
  function Push(v: Svc, i: nat): Action
  {
    match v.start
    case Connecting => StartMoves(i, ConnectFails(Canceled))
    case Connected(_) => StartMoves(i, Proceed)
    case Installed => StartMoves(i, Proceed)
    case Waiting => StartMoves(i, Ends(Canceled))
    case Returning(_) => StartReturns(i)
    case _ => if v.watch.Watching? then WatchMoves(i, ContextArm) else WatchReturns(i)
  }

  lemma PushStart(v: Svc, i: nat)
    requires SvcOk(v, i, false) && (v.start.Connecting? || v.start.Connected? || v.start.Installed? || v.start.Waiting?)
    ensures StartStep(v, i, true, Push(v, i).choice).Some?
    ensures Remaining(StartStep(v, i, true, Push(v, i).choice).value) < Remaining(v)
    ensures StartStep(v, i, true, Push(v, i).choice).value.runs == v.runs
  {
  }

  /** Only service `i` moved, and it has less to do. */
  predicate Pushed(s: State, t: State, i: nat)
    requires i < |s.svcs|
  {
    && t.phase == s.phase && t.calls == s.calls && t.spawned == s.spawned
    && t.outerDone == s.outerDone && (s.first.Some? ==> t.first == s.first)
    && |t.svcs| == |s.svcs| && t.svcs == s.svcs[i := t.svcs[i]] && Remaining(t.svcs[i]) < Remaining(s.svcs[i])
  }

  lemma PushStartMoves(cfg: Config, s: State, i: nat)
    requires i < |s.svcs| && SvcOk(s.svcs[i], i, false) && GroupDone(s)
    requires var v := s.svcs[i]; v.start.Connecting? || v.start.Connected? || v.start.Installed? || v.start.Waiting?
    ensures StartPhase(cfg, s, Push(s.svcs[i], i)).Some? && Pushed(s, StartPhase(cfg, s, Push(s.svcs[i], i)).value, i)
  {
    hide StartStep, SvcOk, Remaining;
    PushStart(s.svcs[i], i);
  }

  lemma PushOtherMoves(cfg: Config, s: State, i: nat)
    requires i < |s.svcs| && GroupDone(s) && !Joinable(s.svcs[i])
    requires s.svcs[i].start.Returning? || s.svcs[i].start.Returned?
    ensures StartPhase(cfg, s, Push(s.svcs[i], i)).Some? && Pushed(s, StartPhase(cfg, s, Push(s.svcs[i], i)).value, i)
  {
    hide Reported, StartStep;
  }

  /** Every goroutine that has not returned can move once its context is done. */
  lemma PushMoves(cfg: Config, s: State, i: nat)
    requires ServicesOk(s) && s.phase.Starting? && GroupDone(s) && i < s.spawned && i < |s.svcs| && !Joinable(s.svcs[i])
    ensures StartPhase(cfg, s, Push(s.svcs[i], i)).Some? && Pushed(s, StartPhase(cfg, s, Push(s.svcs[i], i)).value, i)
  {
    hide StartPhase, Pushed, Push;
    var v := s.svcs[i];
    assert SvcOk(v, i, false);
    if v.start.Connecting? || v.start.Connected? || v.start.Installed? || v.start.Waiting? {
      PushStartMoves(cfg, s, i);
    } else {
      PushOtherMoves(cfg, s, i);
    }
  }

  lemma SpawnMoves(cfg: Config, s: State)
    requires ServicesOk(s) && s.phase.Starting? && s.spawned < |s.svcs|
    ensures StartPhase(cfg, s, Spawn).Some?
    ensures var t := StartPhase(cfg, s, Spawn).value;
            && t.phase == s.phase && t.calls == s.calls && t.outerDone == s.outerDone && t.first == s.first
            && |t.svcs| == |s.svcs| && Work(t.svcs) < Work(s.svcs)
  {
    var i := s.spawned;
    assert SvcOk(s.svcs[i], i, false) && s.svcs[i].start.Unspawned?;
    var t := StartPhase(cfg, s, Spawn).value;
    WorkShrinks(s.svcs, i, t.svcs[i]);
  }

  /** Nearer to the end. */
  function Distance(s: State): (nat, nat, nat, nat)
    requires |s.calls| <= |s.svcs|
  {
    (if s.phase.Starting? then 2 else if s.phase.Stopping? then 1 else 0,
     |s.svcs| - |s.calls|, if GroupDone(s) then 0 else 1, Work(s.svcs))
  }

  predicate Nearer(t: State, s: State)
    requires |s.calls| <= |s.svcs| && |t.calls| <= |t.svcs|
  {
    var x, y := Distance(t), Distance(s);
    || x.0 < y.0
    || (x.0 == y.0 && x.1 < y.1)
    || (x.0 == y.0 && x.1 == y.1 && x.2 < y.2)
    || (x.0 == y.0 && x.1 == y.1 && x.2 == y.2 && x.3 < y.3)
  }

  /** The step leads nearer to the end without undoing anything. */
  predicate Advances(s: State, a: Action, t: State)
    requires |s.calls| <= |s.svcs|
  {
    && |t.svcs| == |s.svcs| && |t.calls| <= |t.svcs| && Nearer(t, s)
    && (GroupDone(s) ==> a != CancelOuter && GroupDone(t)) && (s.first.Some? ==> t.first == s.first)
  }

  lemma StopAdvances(cfg: Config, s: State) returns (a: Action)
    requires s.phase.Stopping? && |s.calls| <= |s.svcs|
    ensures Next(cfg, s, a).Some? && Advances(s, a, Next(cfg, s, a).value)
  {
    hide Work, Share, Shutdown.Left, L.ToRun;
    a := if |s.calls| < |s.svcs| then StopNext(0, None) else Finish;
  }

  lemma PushAdvances(cfg: Config, s: State, i: nat) returns (a: Action)
    requires ServicesOk(s) && s.phase.Starting? && GroupDone(s) && s.spawned == |s.svcs|
    requires i < |s.svcs| && !Joinable(s.svcs[i])
    ensures Next(cfg, s, a).Some? && Advances(s, a, Next(cfg, s, a).value)
  {
    a := Push(s.svcs[i], i);
    PushMoves(cfg, s, i);
    WorkShrinks(s.svcs, i, StartPhase(cfg, s, a).value.svcs[i]);
    hide Work, StartPhase, Remaining, ServicesOk;
  }

  lemma SpawnAdvances(cfg: Config, s: State)
    requires ServicesOk(s) && s.phase.Starting? && GroupDone(s) && s.spawned < |s.svcs|
    ensures Next(cfg, s, Spawn).Some? && Advances(s, Spawn, Next(cfg, s, Spawn).value)
  {
    SpawnMoves(cfg, s);
    hide Work, StartPhase, ServicesOk;
  }

  /** From every state of a run that is not over, some step leads nearer to its end; it
      cancels the outer context only when nothing else has told the services to return,
      and the start error stays. */
  lemma SomeStep(cfg: Config, s: State) returns (a: Action)
    requires ServicesOk(s) && !s.phase.Finished?
    ensures Next(cfg, s, a).Some? && Advances(s, a, Next(cfg, s, a).value)
  {
    if s.phase.Stopping? {
      a := StopAdvances(cfg, s);
    } else if !GroupDone(s) {
      hide Work, SvcOk;
      a := CancelOuter;
    } else if s.spawned < |s.svcs| {
      a := Spawn;
      SpawnAdvances(cfg, s);
    } else if i :| 0 <= i < |s.svcs| && !Joinable(s.svcs[i]) {
      a := PushAdvances(cfg, s, i);
    } else {
      hide Work, SvcOk;
      a := Join;
    }
  }

  /** From every state of a run the run can be completed. When some service has failed,
      or the outer context is done, nothing else has to happen for that: the first failure
      gets every service to return. */
  lemma {:induction false} EveryRunCanComplete(cfg: Config, s: State) returns (actions: seq<Action>)
    requires Inv(cfg, s)
    ensures Exec(cfg, s, actions).Some? && Exec(cfg, s, actions).value.phase.Finished?
    ensures GroupDone(s) ==> CancelOuter !in actions
    ensures s.first.Some? ==> Exec(cfg, s, actions).value.first == s.first
    decreases Distance(s).0, Distance(s).1, Distance(s).2, Distance(s).3
  {
    if s.phase.Finished? {
      actions := [];
    } else {
      InvServices(cfg, s);
      var a := SomeStep(cfg, s);
      StepKeepsInv(cfg, s, a);
      hide Next, Inv, Distance, GroupDone;
      var t := Next(cfg, s, a).value;
      var rest := EveryRunCanComplete(cfg, t);
      actions := [a] + rest;
      assert actions[1..] == rest;
    }
  }

  lemma {:induction false} ExecConcat(cfg: Config, s: State, first: seq<Action>, rest: seq<Action>)
    requires Exec(cfg, s, first).Some?
    ensures Exec(cfg, s, first + rest) == Exec(cfg, Exec(cfg, s, first).value, rest)
    decreases first
  {
    hide Next;
    if first == [] {
      assert first + rest == rest;
    } else {
      assert (first + rest)[1..] == first[1..] + rest;
      ExecConcat(cfg, Next(cfg, s, first[0]).value, first[1..], rest);
    }
  }

  /** A start deadline ends a start that does not get ready: from every state of a run in
      which a watcher is watching and nothing has failed, the run can be completed by its
      timer and without any cancellation from outside, and reports the deadline of that
      service. */
  lemma DeadlineEndsTheRun(cfg: Config, s: State, i: nat) returns (actions: seq<Action>)
    requires Inv(cfg, s) && s.phase.Starting? && s.first.None? && i < |s.svcs| && s.svcs[i].watch.Watching?
    ensures Exec(cfg, s, actions).Some? && CancelOuter !in actions
    ensures var t := Exec(cfg, s, actions).value;
            t.phase.Finished? && RunErrors(t) != [] && RunErrors(t)[0] == FromStart(StartDeadline(i))
  {
    var alarm := [WatchMoves(i, TimerArm)] + [WatchReturns(i)];
    var u := AlarmGoesOff(cfg, s, i);
    var rest := EveryRunCanComplete(cfg, u);
    hide Exec, Inv;
    ExecConcat(cfg, s, alarm, rest);
    actions := alarm + rest;
  }

  lemma AlarmGoesOff(cfg: Config, s: State, i: nat) returns (u: State)
    requires Inv(cfg, s) && s.phase.Starting? && s.first.None? && i < |s.svcs| && s.svcs[i].watch.Watching?
    ensures Exec(cfg, s, [WatchMoves(i, TimerArm)] + [WatchReturns(i)]) == Some(u)
    ensures Inv(cfg, u) && u.first == Some(StartDeadline(i))
  {
    var a, b := WatchMoves(i, TimerArm), WatchReturns(i);
    StepKeepsInv(cfg, s, a);
    hide Inv;
    var t := Next(cfg, s, a).value;
    StepKeepsInv(cfg, t, b);
    u := Next(cfg, t, b).value;
    assert ([a] + [b])[1..] == [b] && [b][1..] == [];
    assert Exec(cfg, t, [b]) == Some(u);
  }

  // ------------------------------------------------------------------
  // Every service runs the lifecycle
  // ------------------------------------------------------------------

  /** The lifecycle of one service before anything happened: one `Start`, one `Stop`. */
  const ALONE := L.State(L.FRESH, None, [], None, [L.Connecting, L.StopCalled])

  /** The only resource of a service, as its lifecycle numbers it. */
  function Own(closure: Option<nat>): Option<L.Res>
  {
    if closure.Some? then Some(0) else None
  }

  /** The state of the lifecycle, between critical sections, that a service is in. */
  predicate Shows(v: Svc, l: L.State)
  {
    && |l.pcs| == 2 && l.mu.None?
    && l.cell == L.Cell(v.cell.stopped, Own(v.cell.stopFunc), v.cell.ready)
    && l.pcs[1] == (if v.cell.stopped then L.StopReturned else L.StopCalled)
    && (if v.acquired then l.conns == [L.Conn(true, v.runs)]
        else v.runs == 0 && (l.conns == [] || l.conns == [L.Conn(false, 0)]))
    && match v.start {
       case Unspawned => l.pcs[0].Connecting? && l.conns == []
       case Connecting => l.pcs[0].Connecting? && l.conns == []
       case Connected(stop) => l.pcs[0] == L.Connected(Own(stop))
       case HalfStarted(stop) => l.pcs[0] == L.HalfStarted(Own(stop))
       case Installed => l.pcs[0].Installed?
       case Waiting => l.pcs[0].Waiting?
       case Returning(_) => l.pcs[0].Started?
       case Returned(_) => l.pcs[0].Started?
       case Panicked => l.pcs[0].Panicked?
    }
  }

  lemma ConnectMirrors(v: Svc, i: nat, done: bool, c: Choice, before: L.Schedule, l: L.State)
    returns (schedule: L.Schedule, m: L.State)
    requires v.start.Connecting? && SvcOk(v, i, false) && StartStep(v, i, done, c).Some? && Shows(v, l)
    requires L.Exec(ALONE, before) == Some(l)
    ensures L.Exec(ALONE, schedule) == Some(m) && Shows(StartStep(v, i, done, c).value, m)
  {
    hide L.Exec;
    schedule, m := L.TakeStep(ALONE, before, l, 0, if c.ConnectOk? then L.ConnectOk(c.closure) else L.ConnectFails);
  }

  lemma InstallMirrors(v: Svc, i: nat, done: bool, c: Choice, before: L.Schedule, l: L.State)
    returns (schedule: L.Schedule, m: L.State)
    requires v.start.Connected? && SvcOk(v, i, false) && StartStep(v, i, done, c).Some? && Shows(v, l)
    requires L.Exec(ALONE, before) == Some(l)
    ensures L.Exec(ALONE, schedule) == Some(m) && Shows(StartStep(v, i, done, c).value, m)
  {
    hide L.Exec;
    schedule, m := L.TakeStep(ALONE, before, l, 0, L.Proceed);
    schedule, m := L.TakeStep(ALONE, schedule, m, 0, L.Proceed);
  }

  lemma UpMirrors(v: Svc, i: nat, done: bool, c: Choice, before: L.Schedule, l: L.State)
    returns (schedule: L.Schedule, m: L.State)
    requires (v.start.Installed? || v.start.Waiting?) && SvcOk(v, i, false) && StartStep(v, i, done, c).Some? && Shows(v, l)
    requires L.Exec(ALONE, before) == Some(l)
    ensures L.Exec(ALONE, schedule) == Some(m) && Shows(StartStep(v, i, done, c).value, m)
  {
    hide L.Exec;
    schedule, m := L.TakeStep(ALONE, before, l, 0, if v.start.Installed? then L.Proceed else L.ContextDone);
  }

  /** A step of a start goroutine is one or two steps of its lifecycle's `Start`. */
  lemma StartMirrors(v: Svc, i: nat, done: bool, c: Choice, before: L.Schedule, l: L.State)
    returns (schedule: L.Schedule, m: L.State)
    requires SvcOk(v, i, false) && StartStep(v, i, done, c).Some? && Shows(v, l) && L.Exec(ALONE, before) == Some(l)
    ensures L.Exec(ALONE, schedule) == Some(m) && Shows(StartStep(v, i, done, c).value, m)
  {
    hide L.Exec, Shows;
    if v.start.Connecting? {
      schedule, m := ConnectMirrors(v, i, done, c, before, l);
    } else if v.start.Connected? {
      schedule, m := InstallMirrors(v, i, done, c, before, l);
    } else {
      schedule, m := UpMirrors(v, i, done, c, before, l);
    }
  }

  /** What stopping does to a service. */
  function Halted(v: Svc): Svc
  {
    v.(cell := v.cell.(stopped := true), runs := v.runs + (if L.ToRun(v.cell).Some? then 1 else 0))
  }

  /** An iteration of the shutdown loop is its lifecycle's `Stop`. */
  lemma StopMirrors(v: Svc, i: nat, before: L.Schedule, l: L.State) returns (schedule: L.Schedule, m: L.State)
    requires SvcOk(v, i, false) && Joinable(v) && Shows(v, l) && L.Exec(ALONE, before) == Some(l)
    ensures L.Exec(ALONE, schedule) == Some(m) && Shows(Halted(v), m)
  {
    hide L.Exec;
    schedule, m := L.TakeStep(ALONE, before, l, 1, L.Proceed);
    schedule, m := L.TakeStep(ALONE, schedule, m, 1, L.Proceed);
    if v.cell.stopFunc.Some? {
      schedule, m := L.TakeStep(ALONE, schedule, m, 1, L.Proceed);
    }
  }

  /** The lifecycle of the service did not move. */
  predicate Rests(v: Svc, w: Svc)
  {
    && v.cell == w.cell && v.acquired == w.acquired && v.runs == w.runs
    && (v.start == w.start || (v.start.Unspawned? && w.start.Connecting?) || (v.start.Returning? && w.start.Returned?))
  }

  lemma RestShows(v: Svc, w: Svc, l: L.State)
    requires Rests(v, w) && Shows(v, l)
    ensures Shows(w, l)
  {
  }

  predicate StartMoved(s: State, a: Action, i: nat, w: Svc)
    requires i < |s.svcs|
  {
    && a.StartMoves? && a.i == i && s.phase.Starting?
    && StartStep(s.svcs[i], i, GroupDone(s) || s.svcs[i].cancelled, a.choice) == Some(w)
  }

  predicate StopMoved(s: State, a: Action, i: nat, w: Svc)
    requires i < |s.svcs|
  {
    a.StopNext? && !s.phase.Starting? && i == |s.svcs| - 1 - |s.calls| && w == Halted(s.svcs[i])
  }

  lemma StartMovesAtService(cfg: Config, s: State, a: Action, i: nat)
    requires a.StartMoves? && s.phase.Starting? && StartPhase(cfg, s, a).Some? && i < |s.svcs|
    ensures var t := StartPhase(cfg, s, a).value;
            |t.svcs| == |s.svcs| && (StartMoved(s, a, i, t.svcs[i]) || t.svcs[i] == s.svcs[i])
  {
    hide StartStep, GroupDone;
  }

  lemma SpawnAtService(cfg: Config, s: State, i: nat)
    requires ServicesOk(s) && s.phase.Starting? && StartPhase(cfg, s, Spawn).Some? && i < |s.svcs|
    ensures var t := StartPhase(cfg, s, Spawn).value; |t.svcs| == |s.svcs| && Rests(s.svcs[i], t.svcs[i])
  {
    hide SvcOk, Joinable;
  }

  lemma OthersAtService(cfg: Config, s: State, a: Action, i: nat)
    requires !a.StartMoves? && !a.Spawn? && StartPhase(cfg, s, a).Some? && i < |s.svcs|
    ensures var t := StartPhase(cfg, s, a).value; |t.svcs| == |s.svcs| && Rests(s.svcs[i], t.svcs[i])
  {
    hide Joinable, GroupDone, Reported;
  }

  lemma StartPhaseAtService(cfg: Config, s: State, a: Action, i: nat)
    requires ServicesOk(s) && s.phase.Starting? && StartPhase(cfg, s, a).Some? && i < |s.svcs|
    ensures var t := StartPhase(cfg, s, a).value;
            |t.svcs| == |s.svcs| && (StartMoved(s, a, i, t.svcs[i]) || Rests(s.svcs[i], t.svcs[i]))
  {
    hide StartPhase, ServicesOk, StartMoved;
    if a.StartMoves? {
      StartMovesAtService(cfg, s, a, i);
    } else if a.Spawn? {
      SpawnAtService(cfg, s, i);
    } else {
      OthersAtService(cfg, s, a, i);
    }
  }

  lemma StopStepAtService(cfg: Config, s: State, elapsed: nat, error: Option<int>, i: nat)
    requires |s.calls| < |s.svcs| && !s.phase.Starting? && i < |s.svcs|
    ensures var t := StopStep(cfg, s, elapsed, error);
            |t.svcs| == |s.svcs| && (StopMoved(s, StopNext(elapsed, error), i, t.svcs[i]) || Rests(s.svcs[i], t.svcs[i]))
  {
    hide Share, Shutdown.Left, L.ToRun;
  }

  /** What a step can do to one service. */
  lemma StepAtService(cfg: Config, s: State, a: Action, i: nat)
    requires ServicesOk(s) && Next(cfg, s, a).Some? && i < |s.svcs|
    ensures var t := Next(cfg, s, a).value;
            && |t.svcs| == |s.svcs|
            && (StartMoved(s, a, i, t.svcs[i]) || StopMoved(s, a, i, t.svcs[i]) || Rests(s.svcs[i], t.svcs[i]))
  {
    hide StartPhase, StopStep, StartMoved, StopMoved, ServicesOk;
    if a.CancelOuter? {
    } else if s.phase.Starting? {
      StartPhaseAtService(cfg, s, a, i);
    } else if a.StopNext? {
      StopStepAtService(cfg, s, a.elapsed, a.error, i);
    }
  }

  lemma StepMirrors(cfg: Config, s: State, a: Action, i: nat, before: L.Schedule, l: L.State)
    returns (schedule: L.Schedule, m: L.State)
    requires ServicesOk(s) && Next(cfg, s, a).Some? && i < |s.svcs|
    requires Shows(s.svcs[i], l) && L.Exec(ALONE, before) == Some(l)
    ensures L.Exec(ALONE, schedule) == Some(m)
    ensures |Next(cfg, s, a).value.svcs| == |s.svcs| && Shows(Next(cfg, s, a).value.svcs[i], m)
  {
    hide L.Exec, Next, SvcOk, StartStep, Halted, Shows, Rests, Joinable;
    StepAtService(cfg, s, a, i);
    assert SvcOk(s.svcs[i], i, i >= |s.svcs| - |s.calls|);
    var v, w := s.svcs[i], Next(cfg, s, a).value.svcs[i];
    if StartMoved(s, a, i, w) {
      schedule, m := StartMirrors(v, i, GroupDone(s) || v.cancelled, a.choice, before, l);
    } else if StopMoved(s, a, i, w) {
      schedule, m := StopMirrors(v, i, before, l);
    } else {
      RestShows(v, w, l);
      schedule, m := before, l;
    }
  }

  lemma {:induction false} RunMirrors(cfg: Config, s: State, actions: seq<Action>, i: nat, before: L.Schedule, l: L.State)
    returns (schedule: L.Schedule, m: L.State)
    requires Inv(cfg, s) && Exec(cfg, s, actions).Some? && i < |s.svcs|
    requires Shows(s.svcs[i], l) && L.Exec(ALONE, before) == Some(l)
    ensures L.Exec(ALONE, schedule) == Some(m)
    ensures |Exec(cfg, s, actions).value.svcs| == |s.svcs| && Shows(Exec(cfg, s, actions).value.svcs[i], m)
    decreases actions
  {
    hide Inv, Next, Shows, L.Exec;
    if actions == [] {
      schedule, m := before, l;
    } else {
      StepKeepsInv(cfg, s, actions[0]);
      InvServices(cfg, s);
      schedule, m := StepMirrors(cfg, s, actions[0], i, before, l);
      schedule, m := RunMirrors(cfg, Next(cfg, s, actions[0]).value, actions[1..], i, schedule, m);
    }
  }

  lemma InvServices(cfg: Config, s: State)
    requires Inv(cfg, s)
    ensures ServicesOk(s)
  {
  }

  /** In every run of the runner each service goes through a run of its own lifecycle,
      with one `Start` and one `Stop`: what is proved of the lifecycle under every
      interleaving holds of every service. */
  lemma ServicesRunLifecycles(cfg: Config, s: State, actions: seq<Action>, i: nat) returns (schedule: L.Schedule)
    requires Initial(s) && Exec(cfg, s, actions).Some? && i < |s.svcs|
    ensures L.Initial(ALONE) && L.OnlyStart(ALONE, 0) && L.Exec(ALONE, schedule).Some?
    ensures |Exec(cfg, s, actions).value.svcs| == |s.svcs|
    ensures Shows(Exec(cfg, s, actions).value.svcs[i], L.Exec(ALONE, schedule).value)
  {
    InitialInv(cfg, s);
    assert L.Exec(ALONE, []) == Some(ALONE);
    var m;
    schedule, m := RunMirrors(cfg, s, actions, i, [], ALONE);
  }
}
