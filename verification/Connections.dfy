/** A component under its lifecycle's interleaving, down to the attempts of its
    Connect closure: every open, ping and close is a step of its own. */
module Connections {
  import opened Common
  import C = Connect
  import L = Lifecycle
  import R = Retry

  type Handle = C.Handle

  /** Where a call is inside `Connect`. `log` holds the outcomes of the attempts
      that are over: the call is at the top of the retry loop, creates a client,
      pings it, closes it after a failed ping, has seen the attempt fail, or is
      about to return with a client or with an error. */
  datatype Try =
    | Outside
    | Asking(log: seq<C.Attempt>)
    | Creating(log: seq<C.Attempt>)
    | Pinging(log: seq<C.Attempt>, h: Handle)
    | Closing(log: seq<C.Attempt>, h: Handle, code: int)
    | Failed(log: seq<C.Attempt>)
    | Kept(log: seq<C.Attempt>, h: Handle)
    | GaveUp(log: seq<C.Attempt>, cancelled: bool)

  /** The lifecycle, the number of attempts, the connections open now, the next
      one, and the field of the component that holds the connection. */
  datatype State = State(
    life: L.State, attempts: nat, open: set<Handle>, next: Handle, handle: Option<Handle>, tries: seq<Try>)

  datatype Choice = Goes | Fails(code: int) | ContextDone | Life(choice: L.Choice)

  predicate Initial(s: State)
  {
    && L.Initial(s.life) && s.attempts >= 1 && s.open == {} && s.next == 0 && s.handle.None?
    && |s.tries| == |s.life.pcs|
    && forall i :: 0 <= i < |s.tries| ==> s.tries[i] == if s.life.pcs[i].Connecting? then Asking([]) else Outside
  }

  function At(s: State, i: nat, to: Try): State
    requires i < |s.tries|
  {
    s.(tries := s.tries[i := to])
  }

  /** `retry.Do` around open, ping and close. */
  function Attempting(s: State, i: nat, c: Choice): Option<State>
    requires i < |s.tries|
  {
    match s.tries[i]
    case Asking(log) =>
      if c.ContextDone? then Some(At(s, i, GaveUp(log, true)))
      else if c.Goes? then Some(At(s, i, Creating(log))) else None
    case Creating(log) =>
      if c.Fails? then Some(At(s, i, Failed(log + [C.CreateFails(c.code)])))
      else if c.Goes? then Some(At(s.(open := s.open + {s.next}, next := s.next + 1), i, Pinging(log, s.next))) else None
    case Pinging(log, h) =>
      if c.Fails? then Some(At(s, i, Closing(log, h, c.code)))
      else if c.Goes? then Some(At(s, i, Kept(log + [C.Works], h))) else None
    case Closing(log, h, code) =>
      if c.Goes? then Some(At(s.(open := s.open - {h}), i, Failed(log + [C.PingFails(code)]))) else None
    case Failed(log) =>
      if |log| >= s.attempts then (if c.Goes? then Some(At(s, i, GaveUp(log, false))) else None)
      else if c.ContextDone? then Some(At(s, i, GaveUp(log, true)))
      else if c.Goes? then Some(At(s, i, Asking(log))) else None
    case _ => None
  }

  /** What the step means to the lifecycle: nothing while attempts go on, and the
      return of `Connect` at their end. */
  function Meaning(s: State, i: nat, c: Choice): Option<L.Choice>
    requires i < |s.tries|
  {
    match s.tries[i]
    case Outside => if c.Life? then Some(c.choice) else None
    case Kept(_, _) => if c.Goes? then Some(L.ConnectOk(true)) else None
    case GaveUp(_, _) => if c.Goes? then Some(L.ConnectFails) else None
    case _ => None
  }

  /** A step of the lifecycle. `Connect` stores its client in the field as it
      returns; the stop closure closes whatever the field holds then. */
  function Following(s: State, i: nat, c: L.Choice): Option<State>
    requires i < |s.tries| && i < |s.life.pcs|
  {
    var next := L.Next(s.life, i, c);
    if next.None? then None else
      var closes := L.Runs(s.life.pcs[i]).Some? && s.handle.Some?;
      Some(At(s.(life := next.value,
                 open := if closes then s.open - {s.handle.value} else s.open,
                 handle := if s.tries[i].Kept? then Some(s.tries[i].h) else s.handle), i, Outside))
  }

  predicate InAttempt(t: Try)
  {
    t.Asking? || t.Creating? || t.Pinging? || t.Closing? || t.Failed?
  }

  function Next(s: State, i: nat, c: Choice): Option<State>
    requires i < |s.tries| && i < |s.life.pcs|
  {
    if InAttempt(s.tries[i]) then Attempting(s, i, c)
    else if Meaning(s, i, c).None? then None
    else Following(s, i, Meaning(s, i, c).value)
  }

  type Schedule = seq<(nat, Choice)>

  function Exec(s: State, schedule: Schedule): Option<State>
    decreases schedule
  {
    if schedule == [] then Some(s) else
      var (i, c) := schedule[0];
      if i >= |s.tries| || i >= |s.life.pcs| then None else
        var t := Next(s, i, c);
        if t.None? then None else Exec(t.value, schedule[1..])
  }

  // ------------------------------------------------------------------
  // Every run is a run of the lifecycle
  // ------------------------------------------------------------------

  /** What is left of a schedule when attempts are not looked at. */
  function Projected(s: State, schedule: Schedule): L.Schedule
    requires Exec(s, schedule).Some?
    decreases schedule
  {
    if schedule == [] then [] else
      var (i, c) := schedule[0];
      var rest := Projected(Next(s, i, c).value, schedule[1..]);
      if InAttempt(s.tries[i]) then rest else [(i, Meaning(s, i, c).value)] + rest
  }

  lemma {:induction false} RunsAreLifecycleRuns(s: State, schedule: Schedule)
    requires Exec(s, schedule).Some?
    ensures L.Exec(s.life, Projected(s, schedule)) == Some(Exec(s, schedule).value.life)
    decreases schedule
  {
    if schedule != [] {
      hide L.Next;
      var (i, c) := schedule[0];
      var t := Next(s, i, c).value;
      RunsAreLifecycleRuns(t, schedule[1..]);
      var rest := Projected(t, schedule[1..]);
      if !InAttempt(s.tries[i]) {
        assert ([(i, Meaning(s, i, c).value)] + rest)[1..] == rest;
      }
    }
  }

  // ------------------------------------------------------------------
  // One Start
  // ------------------------------------------------------------------

  /** The connections that are open, following the only `Start`. */
  predicate OpenOk(s: State, a: nat)
    requires a < |s.tries|
  {
    match s.tries[a]
    case Outside =>
      if s.life.conns == [] then s.open == {}
      else s.handle.Some? && s.life.conns[0].closure && s.open == (if s.life.conns[0].runs == 0 then {s.handle.value} else {})
    case Pinging(_, h) => s.open == {h}
    case Closing(_, h, _) => s.open == {h}
    case Kept(_, h) => s.open == {h}
    case _ => s.open == {}
  }

  predicate ConnOk(s: State, a: nat)
  {
    && |s.tries| == |s.life.pcs| && a < |s.tries|
    && (forall j :: 0 <= j < |s.tries| && j != a ==> s.tries[j].Outside?)
    && (s.tries[a].Outside? <==> !s.life.pcs[a].Connecting?)
    && OpenOk(s, a)
  }

  lemma AttemptingKeeps(s: State, a: nat, c: Choice)
    requires ConnOk(s, a) && L.SingleOk(s.life, a) && InAttempt(s.tries[a]) && Attempting(s, a, c).Some?
    ensures ConnOk(Attempting(s, a, c).value, a)
  {
  }

  /** What a step of the lifecycle does to the only resource. */
  lemma LifeStep(s: L.State, a: nat, i: nat, c: L.Choice)
    requires L.Inv(s) && L.SingleOk(s, a) && i < |s.pcs| && L.Next(s, i, c).Some?
    ensures var t := L.Next(s, i, c).value;
            && t.pcs == s.pcs[i := t.pcs[i]] && !t.pcs[i].Connecting?
            && (s.pcs[i].Connecting? && c.ConnectOk? ==> s.conns == [] && t.conns == [L.Conn(c.closure, 0)])
            && (!(s.pcs[i].Connecting? && c.ConnectOk?) && L.Runs(s.pcs[i]).None? ==> t.conns == s.conns)
            && (L.Runs(s.pcs[i]).Some? ==>
                  !s.pcs[i].Connecting? && |s.conns| == 1 && |t.conns| == 1
                  && t.conns[0] == s.conns[0].(runs := 1) && s.conns[0].runs == 0)
  {
    L.InvCall(s, i);
    L.StepRuns(s, i, c);
    L.StepKeepsKinds(s, i, c);
    LeavesConnecting(s, i, c);
    hide L.Next, L.Inv;
    SingleHasOne(s, a);
  }

  lemma LeavesConnecting(s: L.State, i: nat, c: L.Choice)
    requires i < |s.pcs| && L.Next(s, i, c).Some?
    ensures !L.Next(s, i, c).value.pcs[i].Connecting?
  {
    hide L.Run;
  }

  lemma SingleHasOne(s: L.State, a: nat)
    requires L.SingleOk(s, a)
    ensures |s.conns| <= 1 && (s.pcs[a].Connecting? ==> s.conns == [])
  {
  }

  lemma FollowingKeeps(s: State, a: nat, i: nat, c: L.Choice)
    requires ConnOk(s, a) && L.Inv(s.life) && L.SingleOk(s.life, a)
    requires i < |s.tries| && !InAttempt(s.tries[i]) && Following(s, i, c).Some?
    requires s.tries[i].Kept? ==> c == L.ConnectOk(true)
    requires s.tries[i].GaveUp? ==> c == L.ConnectFails
    ensures ConnOk(Following(s, i, c).value, a)
  {
    LifeStep(s.life, a, i, c);
    hide L.Next, L.Inv, L.SingleOk;
  }

  lemma StepKeeps(s: State, a: nat, i: nat, c: Choice)
    requires ConnOk(s, a) && L.Inv(s.life) && L.SingleOk(s.life, a) && i < |s.tries| && Next(s, i, c).Some?
    ensures var t := Next(s, i, c).value; ConnOk(t, a) && L.Inv(t.life) && L.SingleOk(t.life, a)
  {
    hide L.Next, L.Inv, L.SingleOk, OpenOk;
    if InAttempt(s.tries[i]) {
      AttemptingKeeps(s, a, c);
    } else {
      var choice := Meaning(s, i, c).value;
      FollowingKeeps(s, a, i, choice);
      L.StepKeepsInv(s.life, i, choice);
      L.SingleStep(s.life, a, i, choice);
    }
  }

  lemma {:induction false} RunKeeps(s: State, a: nat, schedule: Schedule)
    requires ConnOk(s, a) && L.Inv(s.life) && L.SingleOk(s.life, a) && Exec(s, schedule).Some?
    ensures var t := Exec(s, schedule).value; ConnOk(t, a) && L.Inv(t.life) && L.SingleOk(t.life, a)
    decreases schedule
  {
    hide L.Inv, L.SingleOk, ConnOk, Next;
    if schedule != [] {
      var (i, c) := schedule[0];
      StepKeeps(s, a, i, c) by {
        ConnSized(s, a);
      }
      RunKeeps(Next(s, i, c).value, a, schedule[1..]);
    }
  }

  lemma ConnSized(s: State, a: nat)
    requires ConnOk(s, a)
    ensures |s.tries| == |s.life.pcs|
  {
  }

  lemma InitialKeeps(s: State, a: nat)
    requires Initial(s) && L.OnlyStart(s.life, a)
    ensures ConnOk(s, a) && L.Inv(s.life) && L.SingleOk(s.life, a)
  {
    L.InitialInv(s.life);
  }

  /** Opened minus closed over all attempts, in every run with one `Start` and any
      number of `Stop` calls: never more than one connection is open; none is after
      a `Connect` that failed, and none once the `Start` and some `Stop` have
      returned; and while `Start` waits and nobody has called `Stop`, the one the
      field holds is. */
  lemma NoConnectionIsLeft(s: State, a: nat, schedule: Schedule, b: nat)
    requires Initial(s) && L.OnlyStart(s.life, a) && Exec(s, schedule).Some?
    ensures var t := Exec(s, schedule).value;
            && a < |t.life.pcs| && |t.open| <= 1
            && (t.life.pcs[a] == L.Started(L.ConnectError) ==> t.open == {})
            && (b < |t.life.pcs| && t.life.pcs[a].Started? && t.life.pcs[b].StopReturned? ==> t.open == {})
            && (t.life.pcs[a].Waiting? && !t.life.cell.stopped ==> t.handle.Some? && t.open == {t.handle.value})
  {
    InitialKeeps(s, a);
    RunKeeps(s, a, schedule);
    RunsAreLifecycleRuns(s, schedule);
    L.ReleasedExactlyOnce(s.life, a, Projected(s, schedule), b);
    hide Exec, L.Exec, Projected;
  }

  // ------------------------------------------------------------------
  // The attempts are those of retry.Do
  // ------------------------------------------------------------------

  /** The script the attempts of a log have followed. */
  function Script(log: seq<C.Attempt>): nat -> C.Attempt
  {
    (k: nat) => if k < |log| then log[k] else C.Works
  }

  const NOTHING := C.Pool({}, 0, None)

  /** What the attempts of the log make of the connections. */
  function Ran(log: seq<C.Attempt>): C.Pool
  {
    if log == [] then NOTHING else C.Tried(Ran(log[..|log| - 1]), log[|log| - 1]).0
  }

  predicate AllFail(log: seq<C.Attempt>)
  {
    forall k :: 0 <= k < |log| ==> !log[k].Works?
  }

  lemma {:induction false} SameScript(f: nat -> C.Attempt, g: nat -> C.Attempt, k: nat)
    requires forall j :: 0 <= j < k ==> f(j) == g(j)
    ensures R.After(C.TryOnce(f), NOTHING, k) == R.After(C.TryOnce(g), NOTHING, k)
  {
    if k > 0 {
      SameScript(f, g, k - 1);
    }
  }

  lemma RanExtends(log: seq<C.Attempt>, x: C.Attempt)
    ensures Ran(log + [x]) == C.Tried(Ran(log), x).0
  {
    assert (log + [x])[..|log|] == log;
  }

  /** It is what `retry.Do` makes of them. */
  lemma {:induction false} RanIsDo(log: seq<C.Attempt>)
    ensures Ran(log) == R.After(C.TryOnce(Script(log)), NOTHING, |log|)
  {
    if log != [] {
      var init := log[..|log| - 1];
      RanIsDo(init);
      SameScript(Script(init), Script(log), |init|);
    }
  }

  /** The only `Start` is where `retry.Do` would be after the attempts of its log. */
  predicate LogOk(s: State, a: nat)
    requires a < |s.tries|
  {
    match s.tries[a]
    case Outside => true
    case Asking(log) => AllFail(log) && |log| < s.attempts && Ran(log) == C.Pool({}, s.next, None)
    case Creating(log) => AllFail(log) && |log| < s.attempts && Ran(log) == C.Pool({}, s.next, None)
    case Pinging(log, h) => AllFail(log) && |log| < s.attempts && Ran(log) == C.Pool({}, h, None) && s.next == h + 1
    case Closing(log, h, _) => AllFail(log) && |log| < s.attempts && Ran(log) == C.Pool({}, h, None) && s.next == h + 1
    case Failed(log) => AllFail(log) && 1 <= |log| <= s.attempts && Ran(log) == C.Pool({}, s.next, None)
    case Kept(log, h) =>
      && 1 <= |log| <= s.attempts && AllFail(log[..|log| - 1]) && log[|log| - 1].Works?
      && Ran(log) == C.Pool({h}, s.next, Some(h))
    case GaveUp(log, cancelled) =>
      && AllFail(log) && (if cancelled then |log| < s.attempts else |log| == s.attempts)
      && Ran(log) == C.Pool({}, s.next, None)
  }

  lemma CreatingLogs(s: State, a: nat, c: Choice)
    requires a < |s.tries| && s.tries[a].Creating? && LogOk(s, a) && (c.Goes? || c.Fails?)
    ensures LogOk(Attempting(s, a, c).value, a)
  {
    hide Ran;
    if c.Fails? {
      RanExtends(s.tries[a].log, C.CreateFails(c.code));
    }
  }

  lemma PingingLogs(s: State, a: nat, c: Choice)
    requires a < |s.tries| && s.tries[a].Pinging? && LogOk(s, a) && (c.Goes? || c.Fails?)
    ensures LogOk(Attempting(s, a, c).value, a)
  {
    hide Ran;
    var log := s.tries[a].log;
    RanExtends(log, C.Works);
    assert (log + [C.Works])[..|log|] == log;
  }

  lemma ClosingLogs(s: State, a: nat, c: Choice)
    requires a < |s.tries| && s.tries[a].Closing? && LogOk(s, a) && c.Goes?
    ensures LogOk(Attempting(s, a, c).value, a)
  {
    hide Ran;
    var h := s.tries[a].h;
    RanExtends(s.tries[a].log, C.PingFails(s.tries[a].code));
    assert ({} + {h}) - {h} == {};
  }

  lemma AskingLogs(s: State, a: nat, c: Choice)
    requires a < |s.tries| && (s.tries[a].Asking? || s.tries[a].Failed?) && LogOk(s, a) && Attempting(s, a, c).Some?
    ensures LogOk(Attempting(s, a, c).value, a)
  {
    hide Ran, AllFail;
  }

  lemma {:induction false} RunLogs(s: State, a: nat, schedule: Schedule)
    requires ConnOk(s, a) && L.Inv(s.life) && L.SingleOk(s.life, a) && LogOk(s, a) && Exec(s, schedule).Some?
    ensures ConnOk(Exec(s, schedule).value, a) && LogOk(Exec(s, schedule).value, a)
    decreases schedule
  {
    hide L.Inv, L.SingleOk, L.Next, Ran, OpenOk;
    if schedule != [] {
      var (i, c) := schedule[0];
      StepKeeps(s, a, i, c);
      var t := Next(s, i, c).value;
      assert LogOk(t, a) by {
        if s.tries[i].Creating? {
          CreatingLogs(s, a, c);
        } else if s.tries[i].Pinging? {
          PingingLogs(s, a, c);
        } else if s.tries[i].Closing? {
          ClosingLogs(s, a, c);
        } else if s.tries[i].Asking? || s.tries[i].Failed? {
          AskingLogs(s, a, c);
        } else {
          hide Attempting;
        }
      }
      hide ConnOk, LogOk, Next;
      RunLogs(t, a, schedule[1..]);
    }
  }

  /** `Connect` is about to return, after the attempts of `log`, as `retry.Do` would. */
  predicate LikeDo(t: State, log: seq<C.Attempt>, client: Option<Handle>, cancelled: bool)
  {
    var fn := C.TryOnce(Script(log));
    && |log| <= t.attempts
    && R.After(fn, NOTHING, |log|) == C.Pool(t.open, t.next, client)
    && (forall k :: 0 <= k < |log| - 1 ==> R.ErrorOf(fn, NOTHING, k).Some?)
    && (client.Some? ==> |log| >= 1 && R.ErrorOf(fn, NOTHING, |log| - 1).None?)
    && (client.None? ==>
          && (|log| >= 1 ==> R.ErrorOf(fn, NOTHING, |log| - 1).Some?)
          && (cancelled <==> |log| < t.attempts))
  }

  lemma KeptLikeDo(t: State, a: nat)
    requires ConnOk(t, a) && LogOk(t, a) && t.tries[a].Kept?
    ensures LikeDo(t, t.tries[a].log, Some(t.tries[a].h), false)
  {
    hide R.After, R.ErrorOf, Script, C.TryOnce, Ran;
    var log := t.tries[a].log;
    RanIsDo(log);
    forall k | 0 <= k < |log|
      ensures R.ErrorOf(C.TryOnce(Script(log)), NOTHING, k).None? <==> k == |log| - 1
    {
      ScriptErrors(log, k);
      assert k < |log| - 1 ==> log[..|log| - 1][k] == log[k];
    }
  }

  lemma GaveUpLikeDo(t: State, a: nat)
    requires ConnOk(t, a) && LogOk(t, a) && t.tries[a].GaveUp?
    ensures LikeDo(t, t.tries[a].log, None, t.tries[a].cancelled)
  {
    hide R.After, R.ErrorOf, Script, C.TryOnce, Ran;
    var log := t.tries[a].log;
    RanIsDo(log);
    forall k | 0 <= k < |log|
      ensures R.ErrorOf(C.TryOnce(Script(log)), NOTHING, k).Some?
    {
      ScriptErrors(log, k);
    }
  }

  /** How `Connect` comes to return in the interleaving is how `retry.Do` comes to
      return: with a client after attempts of which exactly the last worked, with an
      error after as many failures as are allowed or when the context is done; and
      what is open then is what the same attempts leave open under `retry.Do`. */
  lemma ConnectIsDo(s: State, a: nat, schedule: Schedule)
    requires Initial(s) && L.OnlyStart(s.life, a) && Exec(s, schedule).Some?
    ensures var t := Exec(s, schedule).value;
            && a < |t.tries| && t.attempts == s.attempts
            && (t.tries[a].Kept? ==> LikeDo(t, t.tries[a].log, Some(t.tries[a].h), false))
            && (t.tries[a].GaveUp? ==> LikeDo(t, t.tries[a].log, None, t.tries[a].cancelled))
  {
    InitialKeeps(s, a);
    RunLogs(s, a, schedule);
    RunKeepsAttempts(s, schedule);
    hide Exec, LikeDo, LogOk, L.SingleOk, L.Inv;
    var t := Exec(s, schedule).value;
    if t.tries[a].Kept? {
      KeptLikeDo(t, a);
    } else if t.tries[a].GaveUp? {
      GaveUpLikeDo(t, a);
    }
  }

  lemma ScriptErrors(log: seq<C.Attempt>, k: nat)
    requires k < |log|
    ensures R.ErrorOf(C.TryOnce(Script(log)), NOTHING, k).None? <==> log[k].Works?
  {
    hide R.After;
    var q := R.After(C.TryOnce(Script(log)), NOTHING, k);
    assert C.TryOnce(Script(log))(q, k) == C.Tried(q, log[k]);
  }

  lemma {:induction false} RunKeepsAttempts(s: State, schedule: Schedule)
    requires Exec(s, schedule).Some?
    ensures Exec(s, schedule).value.attempts == s.attempts
    decreases schedule
  {
    if schedule != [] {
      hide L.Next;
      RunKeepsAttempts(Next(s, schedule[0].0, schedule[0].1).value, schedule[1..]);
    }
  }

  // ------------------------------------------------------------------
  // More than one Start
  // ------------------------------------------------------------------

  /** Every `Start` that has begun has returned, and so has some `Stop`. */
  predicate Settled(t: State)
  {
    && |t.tries| == |t.life.pcs|
    && (forall i :: 0 <= i < |t.tries| && L.IsStart(t.life.pcs[i]) ==> t.life.pcs[i].Started? || t.tries[i] == Asking([]))
    && exists b :: 0 <= b < |t.life.pcs| && t.life.pcs[b].StopReturned?
  }

  /** The connection is open now and whatever is done from now on. */
  ghost predicate OpenForGood(t: State, h: Handle)
  {
    forall later: Schedule :: Exec(t, later).Some? ==> h in Exec(t, later).value.open
  }

  ghost predicate Leaks(s: State, schedule: Schedule)
  {
    Exec(s, schedule).Some? && Settled(Exec(s, schedule).value) && exists h :: OpenForGood(Exec(s, schedule).value, h)
  }

  predicate Holds(t: Try, h: Handle)
  {
    (t.Pinging? || t.Closing? || t.Kept?) && t.h == h
  }

  /** Nobody can close the connection any more: neither the field nor an attempt has it. */
  predicate Orphan(s: State, h: Handle)
  {
    && h in s.open && h < s.next && s.handle != Some(h)
    && forall i :: 0 <= i < |s.tries| ==> !Holds(s.tries[i], h)
  }

  lemma OrphanStep(s: State, i: nat, c: Choice, h: Handle)
    requires Orphan(s, h) && i < |s.tries| && i < |s.life.pcs| && Next(s, i, c).Some?
    ensures Orphan(Next(s, i, c).value, h)
  {
    hide L.Next;
    assert !Holds(s.tries[i], h);
  }

  lemma {:induction false} OrphanStays(s: State, later: Schedule, h: Handle)
    requires Orphan(s, h) && Exec(s, later).Some?
    ensures h in Exec(s, later).value.open
    decreases later
  {
    if later != [] {
      OrphanStep(s, later[0].0, later[0].1, h);
      hide Next, Orphan;
      OrphanStays(Next(s, later[0].0, later[0].1).value, later[1..], h);
    }
  }

  lemma OrphanIsOpenForGood(s: State, h: Handle)
    requires Orphan(s, h)
    ensures OpenForGood(s, h)
  {
    forall later: Schedule | Exec(s, later).Some?
      ensures h in Exec(s, later).value.open
    {
      OrphanStays(s, later, h);
    }
  }

  lemma OpenNow(t: State, h: Handle)
    requires OpenForGood(t, h)
    ensures h in t.open
  {
    assert Exec(t, []) == Some(t);
  }

  lemma OneStartDoesNotLeak(s: State, a: nat, schedule: Schedule)
    requires Initial(s) && L.OnlyStart(s.life, a)
    ensures !Leaks(s, schedule)
  {
    hide Exec, OpenForGood;
    if Leaks(s, schedule) {
      var t := Exec(s, schedule).value;
      var h :| OpenForGood(t, h);
      OpenNow(t, h);
      var b :| 0 <= b < |t.life.pcs| && t.life.pcs[b].StopReturned?;
      NoConnectionIsLeft(s, a, schedule, b);
      InitialKeeps(s, a);
      RunKeeps(s, a, schedule);
    }
  }

  lemma {:induction false} NoStartOpensNothing(s: State, schedule: Schedule)
    requires s.open == {} && (forall i :: 0 <= i < |s.tries| ==> s.tries[i].Outside?) && Exec(s, schedule).Some?
    ensures Exec(s, schedule).value.open == {}
    decreases schedule
  {
    if schedule != [] {
      hide L.Next;
      NoStartOpensNothing(Next(s, schedule[0].0, schedule[0].1).value, schedule[1..]);
    }
  }

  lemma {:induction false} ExecAppend(s: State, schedule: Schedule, i: nat, c: Choice)
    requires Exec(s, schedule).Some?
    requires i < |Exec(s, schedule).value.tries| && i < |Exec(s, schedule).value.life.pcs|
    ensures Exec(s, schedule + [(i, c)]) == Next(Exec(s, schedule).value, i, c)
    decreases schedule
  {
    hide Next;
    if schedule == [] {
      assert schedule + [(i, c)] == [(i, c)];
      assert Exec(s, [(i, c)]) == Next(s, i, c);
    } else {
      assert (schedule + [(i, c)])[1..] == schedule[1..] + [(i, c)];
      ExecAppend(Next(s, schedule[0].0, schedule[0].1).value, schedule[1..], i, c);
    }
  }

  lemma TakeStep(s: State, before: Schedule, u: State, i: nat, c: Choice) returns (schedule: Schedule, t: State)
    requires Exec(s, before) == Some(u) && i < |u.tries| && i < |u.life.pcs| && Next(u, i, c).Some?
    ensures t == Next(u, i, c).value && Exec(s, schedule) == Some(t)
  {
    ExecAppend(s, before, i, c);
    schedule, t := before + [(i, c)], Next(u, i, c).value;
  }

  /** The lifecycle after a `Connect` of call `i` succeeded. */
  function Obtained(s: L.State, i: nat): L.State
    requires i < |s.pcs|
  {
    L.State(s.cell, s.mu, s.conns + [L.Conn(true, 0)], Some(|s.conns|), s.pcs[i := L.Connected(Some(|s.conns|))])
  }

  /** A `Connect` that succeeds at its first attempt. */
  lemma ConnectsAtOnce(s: State, before: Schedule, u: State, i: nat) returns (schedule: Schedule, t: State)
    requires Exec(s, before) == Some(u) && i < |u.tries| == |u.life.pcs|
    requires u.tries[i] == Asking([]) && u.life.pcs[i].Connecting?
    ensures Exec(s, schedule) == Some(t)
    ensures t == State(Obtained(u.life, i), u.attempts, u.open + {u.next}, u.next + 1, Some(u.next), u.tries[i := Outside])
  {
    hide Exec;
    schedule, t := TakeStep(s, before, u, i, Goes);
    schedule, t := TakeStep(s, schedule, t, i, Goes);
    schedule, t := TakeStep(s, schedule, t, i, Goes);
    schedule, t := TakeStep(s, schedule, t, i, Goes);
    assert t.tries == u.tries[i := Outside];
  }

  /** A `Start` that finds itself stopped runs its closure, which closes what the
      field holds. */
  lemma StartsTooLate(s: State, before: Schedule, u: State, i: nat) returns (schedule: Schedule, t: State)
    requires Exec(s, before) == Some(u) && i < |u.tries| == |u.life.pcs| && u.handle.Some?
    requires u.tries[i].Outside? && u.life.pcs[i].Connected? && u.life.pcs[i].stop.Some?
    requires u.life.cell.stopped && u.life.mu.None?
    ensures Exec(s, schedule) == Some(t)
    ensures t.life.cell == u.life.cell && t.life.mu.None? && t.handle == u.handle && t.next == u.next
    ensures t.open == u.open - {u.handle.value}
    ensures |t.life.pcs| == |u.life.pcs| && t.life.pcs == u.life.pcs[i := t.life.pcs[i]] && t.life.pcs[i].Started?
    ensures t.tries == u.tries
  {
    hide Exec;
    schedule, t := TakeStep(s, before, u, i, Life(L.Proceed));
    schedule, t := TakeStep(s, schedule, t, i, Life(L.Proceed));
    schedule, t := TakeStep(s, schedule, t, i, Life(L.Proceed));
    assert t.life.pcs == u.life.pcs[i := t.life.pcs[i]];
  }

  /** A `Stop` that finds nothing to run. */
  lemma StopsEmpty(s: State, before: Schedule, u: State, b: nat) returns (schedule: Schedule, t: State)
    requires Exec(s, before) == Some(u) && b < |u.tries| == |u.life.pcs|
    requires u.tries[b].Outside? && u.life.pcs[b].StopCalled? && u.life.cell == L.FRESH && u.life.mu.None?
    ensures Exec(s, schedule) == Some(t)
    ensures t == u.(life := u.life.(cell := L.FRESH.(stopped := true), pcs := u.life.pcs[b := L.StopReturned]))
  {
    hide Exec;
    schedule, t := TakeStep(s, before, u, b, Life(L.Proceed));
    schedule, t := TakeStep(s, schedule, t, b, Life(L.Proceed));
    assert t.life.pcs == u.life.pcs[b := L.StopReturned];
    assert t.tries == u.tries;
  }

  /** Two `Start` calls connect, and a `Stop` comes before either keeps its closure. */
  lemma TwoConnect(s: State, i: nat, j: nat, b: nat) returns (schedule: Schedule, t: State)
    requires Initial(s) && i < |s.tries| && j < |s.tries| && b < |s.tries| && i != j
    requires s.life.pcs[i].Connecting? && s.life.pcs[j].Connecting? && s.life.pcs[b].StopCalled?
    ensures Exec(s, schedule) == Some(t)
    ensures t.open == {0, 1} && t.next == 2 && t.handle == Some(1) && t.life.cell == L.FRESH.(stopped := true) && t.life.mu.None?
    ensures t.life.pcs == s.life.pcs[i := L.Connected(Some(0))][j := L.Connected(Some(1))][b := L.StopReturned]
    ensures t.tries == s.tries[i := Outside][j := Outside]
  {
    hide Next, L.Next;
    schedule, t := ConnectsAtOnce(s, [], s, i) by {
      assert Exec(s, []) == Some(s);
    }
    hide Exec;
    schedule, t := ConnectsAtOnce(s, schedule, t, j);
    schedule, t := StopsEmpty(s, schedule, t, b);
  }

  /** Then both closures close the second connection. */
  lemma TwoStartsLeak(s: State, i: nat, j: nat, b: nat) returns (schedule: Schedule)
    requires Initial(s) && i < |s.tries| && j < |s.tries| && b < |s.tries| && i != j
    requires s.life.pcs[i].Connecting? && s.life.pcs[j].Connecting? && s.life.pcs[b].StopCalled?
    ensures Leaks(s, schedule)
  {
    hide Next, L.Next, Exec;
    var t;
    schedule, t := TwoConnect(s, i, j, b);
    schedule, t := StartsTooLate(s, schedule, t, i);
    schedule, t := StartsTooLate(s, schedule, t, j);
    assert t.life.pcs[b].StopReturned?;
    assert Settled(t) && Orphan(t, 0);
    OrphanIsOpenForGood(t, 0);
  }

  /** The stop closures close what the field holds, not what their `Connect` opened.
      So, a `Stop` being called: some run leaves a connection open for good if and
      only if `Start` is called at least twice. */
  lemma LeaksIffStartedTwice(s: State)
    requires Initial(s) && exists b :: 0 <= b < |s.tries| && s.life.pcs[b].StopCalled?
    ensures (exists schedule: Schedule :: Leaks(s, schedule)) <==> L.TwoStarts(s.life)
  {
    hide Exec, OpenForGood;
    if L.TwoStarts(s.life) {
      var i, j :| 0 <= i < |s.life.pcs| && 0 <= j < |s.life.pcs| && i != j && s.life.pcs[i].Connecting? && s.life.pcs[j].Connecting?;
      var b :| 0 <= b < |s.tries| && s.life.pcs[b].StopCalled?;
      var schedule := TwoStartsLeak(s, i, j, b);
    } else {
      forall schedule: Schedule
        ensures !Leaks(s, schedule)
      {
        if a :| 0 <= a < |s.life.pcs| && s.life.pcs[a].Connecting? {
          assert L.OnlyStart(s.life, a);
          OneStartDoesNotLeak(s, a, schedule);
        } else if Leaks(s, schedule) {
          NoStartOpensNothing(s, schedule);
          var h :| OpenForGood(Exec(s, schedule).value, h);
          OpenNow(Exec(s, schedule).value, h);
        }
      }
    }
  }

  // ------------------------------------------------------------------
  // Attempts follow from what the server answered
  // ------------------------------------------------------------------

  /** The errors call `i` got from creating and pinging, by what happened. */
  function Refusals(schedule: Schedule, i: nat): seq<int>
  {
    if schedule == [] then [] else
      var before, last := schedule[..|schedule| - 1], schedule[|schedule| - 1];
      Refusals(before, i) + (if last.0 == i && last.1.Fails? then [last.1.code] else [])
  }

  /** The errors of the attempts in a log. */
  function Codes(log: seq<C.Attempt>): seq<int>
  {
    if log == [] then [] else
      var last := log[|log| - 1];
      Codes(log[..|log| - 1]) + (if last.Works? then [] else [last.code])
  }

  lemma CodesLast(log: seq<C.Attempt>, x: C.Attempt)
    ensures Codes(log + [x]) == Codes(log) + (if x.Works? then [] else [x.code])
  {
    assert (log + [x])[..|log|] == log;
  }

  lemma RefusalsLast(before: Schedule, last: (nat, Choice), i: nat)
    ensures Refusals(before + [last], i) == Refusals(before, i) + (if last.0 == i && last.1.Fails? then [last.1.code] else [])
    ensures forall x :: x in before + [last] <==> x in before || x == last
  {
    assert (before + [last])[..|before|] == before;
  }

  /** The attempts of call `i` are what the server answered: one failed attempt for each
      refusal, in order, a client only without one, and giving up early only for a context
      that was seen done. */
  predicate Follows(t: Try, i: nat, schedule: Schedule)
  {
    var told, done := Refusals(schedule, i), (i, ContextDone) in schedule;
    match t
    case Outside => true
    case Closing(log, _, code) => AllFail(log) && Codes(log) + [code] == told && !done
    case Kept(log, _) =>
      && log != [] && AllFail(log[..|log| - 1]) && log[|log| - 1].Works?
      && Codes(log[..|log| - 1]) == told && !done
    case GaveUp(log, cancelled) => AllFail(log) && Codes(log) == told && (cancelled <==> done)
    case _ => AllFail(t.log) && Codes(t.log) == told && !done
  }

  lemma AttemptingFollows(s: State, i: nat, c: Choice, before: Schedule)
    requires i < |s.tries| && InAttempt(s.tries[i]) && Attempting(s, i, c).Some? && Follows(s.tries[i], i, before)
    ensures var t := Attempting(s, i, c).value;
            |t.tries| == |s.tries| && Follows(t.tries[i], i, before + [(i, c)])
  {
    hide Refusals, Codes;
    var log := s.tries[i].log;
    RefusalsLast(before, (i, c), i);
    if c.Fails? {
      CodesLast(log, C.CreateFails(c.code));
    }
    if s.tries[i].Closing? {
      CodesLast(log, C.PingFails(s.tries[i].code));
    }
    assert (log + [C.Works])[..|log|] == log;
    assert Refusals(before, i) + [] == Refusals(before, i);
  }

  lemma OthersFollow(t: Try, i: nat, j: nat, c: Choice, before: Schedule)
    requires Follows(t, j, before) && i != j
    ensures Follows(t, j, before + [(i, c)])
  {
    hide Refusals, Codes;
    RefusalsLast(before, (i, c), j);
    assert Refusals(before, j) + [] == Refusals(before, j);
  }

  lemma StepFollows(s: State, i: nat, c: Choice, j: nat, before: Schedule)
    requires i < |s.tries| && i < |s.life.pcs| && j < |s.tries| && Next(s, i, c).Some? && Follows(s.tries[j], j, before)
    ensures var t := Next(s, i, c).value;
            |t.tries| == |s.tries| && Follows(t.tries[j], j, before + [(i, c)])
  {
    hide L.Next, Follows;
    if i != j {
      OthersFollow(s.tries[j], i, j, c, before);
    } else if InAttempt(s.tries[i]) {
      AttemptingFollows(s, i, c, before);
    } else {
      OutsideFollows(i, before + [(i, c)]);
    }
  }

  lemma OutsideFollows(i: nat, schedule: Schedule)
    ensures Follows(Outside, i, schedule)
  {
  }

  lemma {:induction false} ExecPrefix(s: State, schedule: Schedule)
    requires schedule != [] && Exec(s, schedule).Some?
    ensures var init, last := schedule[..|schedule| - 1], schedule[|schedule| - 1];
            && Exec(s, init).Some?
            && last.0 < |Exec(s, init).value.tries| && last.0 < |Exec(s, init).value.life.pcs|
            && Exec(s, schedule) == Next(Exec(s, init).value, last.0, last.1)
    decreases schedule
  {
    hide Next;
    if |schedule| == 1 {
      assert schedule[1..] == [] && schedule[..0] == [];
    } else {
      var rest := schedule[1..];
      assert rest[..|rest| - 1] == schedule[..|schedule| - 1][1..];
      ExecPrefix(Next(s, schedule[0].0, schedule[0].1).value, rest);
    }
  }

  /** In every run, with any number of `Start` calls, the attempts of each are what the
      server and the context answered it. */
  lemma {:induction false} AttemptsFollow(s: State, schedule: Schedule, i: nat)
    requires Initial(s) && Exec(s, schedule).Some? && i < |s.tries|
    ensures i < |Exec(s, schedule).value.tries| && Follows(Exec(s, schedule).value.tries[i], i, schedule)
    decreases schedule
  {
    if schedule != [] {
      ExecPrefix(s, schedule);
      var init, last := schedule[..|schedule| - 1], schedule[|schedule| - 1];
      hide Exec, Next, Follows;
      AttemptsFollow(s, init, i);
      StepFollows(Exec(s, init).value, last.0, last.1, i, init);
      assert init + [last] == schedule;
    }
  }

  predicate Deciding(t: Try)
  {
    t.Kept? || t.GaveUp?
  }

  /** No attempt is ever stuck: `Connect` can be brought to return from wherever it is. */
  lemma ConnectCanReturn(s: State, i: nat) returns (schedule: Schedule)
    requires i < |s.tries| && i < |s.life.pcs| && !s.tries[i].Outside?
    ensures Exec(s, schedule).Some? && i < |Exec(s, schedule).value.tries| && Deciding(Exec(s, schedule).value.tries[i])
  {
    var t := s;
    schedule := [];
    assert Exec(s, []) == Some(s);
    hide Exec;
    if t.tries[i].Creating? {
      schedule, t := TakeStep(s, schedule, t, i, Fails(0));
    } else if t.tries[i].Closing? {
      schedule, t := TakeStep(s, schedule, t, i, Goes);
    }
    if t.tries[i].Asking? {
      schedule, t := TakeStep(s, schedule, t, i, ContextDone);
    } else if t.tries[i].Pinging? {
      schedule, t := TakeStep(s, schedule, t, i, Goes);
    } else if t.tries[i].Failed? {
      schedule, t := TakeStep(s, schedule, t, i, if |t.tries[i].log| >= t.attempts then Goes else ContextDone);
    }
  }

  predicate Connects(s: State, schedule: Schedule, i: nat)
  {
    Exec(s, schedule).Some? && i < |Exec(s, schedule).value.tries| && Exec(s, schedule).value.tries[i].Kept?
  }

  /** `Connect` of the call is over, or out of attempts. */
  predicate Finished(s: State, i: nat)
    requires i < |s.tries|
  {
    s.tries[i].Outside? || s.tries[i].GaveUp? || (s.tries[i].Failed? && |s.tries[i].log| >= s.attempts)
  }

  lemma {:induction false} FinishedStays(s: State, schedule: Schedule, i: nat)
    requires i < |s.tries| && Finished(s, i) && Exec(s, schedule).Some?
    ensures i < |Exec(s, schedule).value.tries| && Finished(Exec(s, schedule).value, i)
    decreases schedule
  {
    if schedule != [] {
      hide L.Next;
      var t := Next(s, schedule[0].0, schedule[0].1).value;
      assert |t.tries| == |s.tries| && Finished(t, i);
      hide Next, Finished;
      FinishedStays(t, schedule[1..], i);
    }
  }

  /** After a failed attempt `Connect` can still succeed if and only if the configured
      number of attempts is not used up. */
  lemma CanStillConnectIff(s: State, i: nat)
    requires i < |s.tries| && i < |s.life.pcs| && s.tries[i].Failed?
    ensures (exists schedule: Schedule :: Connects(s, schedule, i)) <==> |s.tries[i].log| < s.attempts
  {
    if |s.tries[i].log| < s.attempts {
      var schedule, t := TakeStep(s, [], s, i, Goes);
      hide Exec;
      schedule, t := TakeStep(s, schedule, t, i, Goes);
      schedule, t := TakeStep(s, schedule, t, i, Goes);
      schedule, t := TakeStep(s, schedule, t, i, Goes);
      assert Connects(s, schedule, i);
    } else {
      hide Exec;
      forall schedule: Schedule
        ensures !Connects(s, schedule, i)
      {
        if Exec(s, schedule).Some? {
          FinishedStays(s, schedule, i);
        }
      }
    }
  }
}
