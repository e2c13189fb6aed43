/** `healthkit.Aggregator`: a TTL cache and a single flight per kind of check,
    under any number of concurrent probes. */
module Health {
  import opened Common
  import opened FanIn

  const KINDS: nat := 3

  /** The kind of a check: liveness, readiness or startup. */
  type Kind = k: int | 0 <= k < 3 witness 0

  // ------------------------------------------------------------------
  // Construction and registration
  // ------------------------------------------------------------------

  const MILLISECOND: int := 1_000_000
  const DEFAULT_TTL: int := 1_000 * MILLISECOND
  const DEFAULT_TIMEOUT: int := 300 * MILLISECOND

  /** Zero means the floor, negative means no caching. */
  function CacheTTL(requested: int): (ttl: nat)
    ensures ttl == 0 <==> requested < 0
    ensures requested > 0 ==> ttl == requested
    ensures requested == 0 ==> ttl == DEFAULT_TTL
  {
    if requested == 0 then DEFAULT_TTL else if requested < 0 then 0 else requested
  }

  function Normalized(c: Check): (r: Check)
    ensures r.timeout > 0 && r.name == c.name
    ensures r.timeout == (if c.timeout > 0 then c.timeout else DEFAULT_TIMEOUT)
  {
    if c.timeout <= 0 then c.(timeout := DEFAULT_TIMEOUT) else c
  }

  /** The checks of one kind among some registrations, in registration order. */
  function OfKind(regs: seq<(Kind, Check)>, k: Kind): (r: seq<Check>)
    ensures forall i :: 0 <= i < |r| ==> r[i].timeout > 0
  {
    if regs == [] then [] else
      var last := regs[|regs| - 1];
      OfKind(regs[..|regs| - 1], k) + (if last.0 == k then [Normalized(last.1)] else [])
  }

  lemma OfKindStep(regs: seq<(Kind, Check)>, n: nat, k: Kind)
    requires n < |regs|
    ensures OfKind(regs[..n + 1], k) == OfKind(regs[..n], k) + (if regs[n].0 == k then [Normalized(regs[n].1)] else [])
  {
    assert regs[..n + 1][..n] == regs[..n];
  }

  class Registry {
    var checks: map<Kind, seq<Check>>
    const ttl: nat

    constructor (requested: int)
      ensures checks == map[] && ttl == CacheTTL(requested)
    {
      checks := map[];
      ttl := CacheTTL(requested);
    }

    /** Appends each check to its kind, in order, with a positive timeout. */
    method Register(regs: seq<(Kind, Check)>)
      modifies this
      ensures Registered(old(checks), checks, regs)
    {
      ghost var before := checks;
      RegisteredNone(checks);
      for n := 0 to |regs|
        invariant Registered(before, checks, regs[..n])
      {
        hide Registered;
        var (kind, c) := regs[n];
        if c.timeout <= 0 {
          c := c.(timeout := DEFAULT_TIMEOUT);
        }
        RegisteredMore(before, checks, regs, n);
        checks := checks[kind := Of(checks, kind) + [c]];
      }
      assert regs[..|regs|] == regs;
    }
  }

  function Of(checks: map<Kind, seq<Check>>, k: Kind): seq<Check>
  {
    if k in checks then checks[k] else []
  }

  /** Each kind's checks are those of before and then, in order, its own among `regs`. */
  ghost predicate Registered(before: map<Kind, seq<Check>>, after: map<Kind, seq<Check>>, regs: seq<(Kind, Check)>)
  {
    forall k: Kind :: Of(after, k) == Of(before, k) + OfKind(regs, k)
  }

  lemma RegisteredNone(checks: map<Kind, seq<Check>>)
    ensures Registered(checks, checks, [])
  {
  }

  lemma Associative(a: seq<Check>, b: seq<Check>, c: seq<Check>)
    ensures (a + b) + c == a + (b + c)
  {
  }

  lemma RegisteredOne(
    before: map<Kind, seq<Check>>, checks: map<Kind, seq<Check>>, regs: seq<(Kind, Check)>, n: nat, k: Kind)
    requires n < |regs| && Of(checks, k) == Of(before, k) + OfKind(regs[..n], k)
    ensures Of(checks[regs[n].0 := Of(checks, regs[n].0) + [Normalized(regs[n].1)]], k)
         == Of(before, k) + OfKind(regs[..n + 1], k)
  {
    OfKindStep(regs, n, k);
    hide OfKind, Normalized;
    if regs[n].0 == k {
      Associative(Of(before, k), OfKind(regs[..n], k), [Normalized(regs[n].1)]);
    } else {
      assert OfKind(regs[..n], k) + [] == OfKind(regs[..n], k);
    }
  }

  lemma RegisteredMore(before: map<Kind, seq<Check>>, checks: map<Kind, seq<Check>>, regs: seq<(Kind, Check)>, n: nat)
    requires n < |regs| && Registered(before, checks, regs[..n])
    ensures Registered(before, checks[regs[n].0 := Of(checks, regs[n].0) + [Normalized(regs[n].1)]], regs[..n + 1])
  {
    hide Of, OfKind;
    forall k: Kind
      ensures Of(checks[regs[n].0 := Of(checks, regs[n].0) + [Normalized(regs[n].1)]], k)
           == Of(before, k) + OfKind(regs[..n + 1], k)
    {
      RegisteredOne(before, checks, regs, n, k);
    }
  }

  // ------------------------------------------------------------------
  // Concurrent evaluation
  // ------------------------------------------------------------------

  /** One execution of the shared function: who leads it and what that caller had
      seen (the time it began, the step at which it loaded the cache), the fan-in,
      when the result was stamped, and the steps at which the flight was opened,
      stored in the cache and closed. */
  datatype Flight = Flight(
    kind: Kind, leaderNow: nat, leaderLoad: nat, gather: Gather, openedAt: nat,
    at: Option<nat>, stored: Option<nat>, ended: Option<nat>)

  /** Where a call of `evaluate` is. `now` is the time it took on entry; `begin`,
      `load` and `end` are the steps at which it did so, loaded the cache and was
      answered. */
  datatype Pc =
    | Idle
    | Began(now: nat, begin: nat)
    | Missed(now: nat, begin: nat, load: nat)
    | Joined(now: nat, begin: nat, flight: nat)
    | Answered(now: nat, begin: nat, flight: nat, cached: bool, end: nat)

  datatype Caller = Caller(kind: Kind, pc: Pc)

  datatype Entry = Entry(flight: nat, at: nat)

  /** `step` counts steps; `clock` is the wall clock, which may stand still. */
  datatype State = State(
    step: nat, clock: nat, checks: seq<seq<Check>>, cache: seq<Option<Entry>>, active: seq<Option<nat>>,
    flights: seq<Flight>, callers: seq<Caller>)

  datatype FlightMove = Completes(check: nat, fails: bool) | Stamps | Stores | Ends

  datatype Action =
    | Probe(i: nat)
    | Fly(f: nat, move: FlightMove)
    | Tick(elapsed: nat)
    | Register(kind: Kind, check: Check)

  predicate Sized(s: State)
  {
    |s.checks| == KINDS && |s.cache| == KINDS && |s.active| == KINDS
  }

  predicate Initial(s: State)
  {
    && Sized(s) && s.flights == []
    && (forall k: Kind :: s.checks[k] == [] && s.cache[k].None? && s.active[k].None?)
    && forall i :: 0 <= i < |s.callers| ==> s.callers[i].pc.Idle?
  }

  /** A hit needs caching to be on and an entry stamped less than the TTL ago. */
  predicate Hit(ttl: nat, now: nat, e: Option<Entry>)
  {
    ttl > 0 && e.Some? && now - e.value.at < ttl
  }

  /** The next step of a call of `evaluate`: take the time; load the cache; join the
      flight of its kind or lead a new one; return once that flight is over. */
  function ProbeStep(ttl: nat, s: State, i: nat): Option<State>
    requires Sized(s) && i < |s.callers|
  {
    var k := s.callers[i].kind;
    match s.callers[i].pc
    case Idle => Some(AtPc(s, i, Began(s.clock, s.step)))
    case Began(now, begin) =>
      if Hit(ttl, now, s.cache[k]) then Some(AtPc(s, i, Answered(now, begin, s.cache[k].value.flight, true, s.step)))
      else Some(AtPc(s, i, Missed(now, begin, s.step)))
    case Missed(now, begin, load) =>
      if s.active[k].Some? then Some(AtPc(s, i, Joined(now, begin, s.active[k].value)))
      else
        var f := |s.flights|;
        var flight := Flight(k, now, load, Launch(s.checks[k]), s.step, None, None, None);
        Some(AtPc(s.(flights := s.flights + [flight], active := s.active[k := Some(f)]), i, Joined(now, begin, f)))
    case Joined(now, begin, f) =>
      if f < |s.flights| && s.flights[f].ended.Some? then Some(AtPc(s, i, Answered(now, begin, f, false, s.step))) else None
    case Answered(_, _, _, _, _) => None
  }

  function AtPc(s: State, i: nat, pc: Pc): State
    requires i < |s.callers|
  {
    s.(step := s.step + 1, callers := s.callers[i := s.callers[i].(pc := pc)])
  }

  /** The flight's own steps: a check finishes; all have, so the result is stamped,
      stored in the cache of its kind, and the flight's key is released. */
  function FlightTo(s: State, x: Flight, move: FlightMove): Option<Flight>
  {
    match move
    case Completes(c, fails) =>
      if CanComplete(x.gather, c, fails) && x.at.None? then Some(x.(gather := Complete(x.gather, c, fails))) else None
    case Stamps => if x.gather.pending == {} && x.at.None? then Some(x.(at := Some(s.clock))) else None
    case Stores => if x.at.Some? && x.stored.None? then Some(x.(stored := Some(s.step))) else None
    case Ends => if x.stored.Some? && x.ended.None? then Some(x.(ended := Some(s.step))) else None
  }

  function FlyStep(s: State, f: nat, move: FlightMove): Option<State>
    requires Sized(s) && f < |s.flights|
  {
    var x := s.flights[f];
    var y := FlightTo(s, x, move);
    if y.None? then None else
      Some(s.(step := s.step + 1, flights := s.flights[f := y.value],
              cache := if move.Stores? then s.cache[x.kind := Some(Entry(f, x.at.value))] else s.cache,
              active := if move.Ends? then s.active[x.kind := None] else s.active))
  }

  function Next(ttl: nat, s: State, a: Action): Option<State>
    requires Sized(s)
  {
    match a
    case Probe(i) => if i < |s.callers| then ProbeStep(ttl, s, i) else None
    case Fly(f, move) => if f < |s.flights| then FlyStep(s, f, move) else None
    case Tick(elapsed) => Some(s.(step := s.step + 1, clock := s.clock + elapsed))
    case Register(k, c) => Some(s.(step := s.step + 1, checks := s.checks[k := s.checks[k] + [Normalized(c)]]))
  }

  lemma NextSized(ttl: nat, s: State, a: Action)
    requires Sized(s) && Next(ttl, s, a).Some?
    ensures Sized(Next(ttl, s, a).value)
  {
  }

  function Exec(ttl: nat, s: State, actions: seq<Action>): Option<State>
    requires Sized(s)
    decreases actions
  {
    if actions == [] then Some(s) else
      var t := Next(ttl, s, actions[0]);
      if t.None? then None else
        NextSized(ttl, s, actions[0]);
        Exec(ttl, t.value, actions[1..])
  }

  // ------------------------------------------------------------------
  // Invariant
  // ------------------------------------------------------------------

  ghost predicate FlightOk(s: State, f: nat)
    requires Sized(s) && f < |s.flights|
  {
    var x := s.flights[f];
    && GatherOk(x.gather) && x.gather.checks <= s.checks[x.kind]
    && x.openedAt < s.step && x.leaderLoad < x.openedAt
    && (x.at.Some? ==> x.gather.pending == {} && x.at.value <= s.clock)
    && (x.stored.Some? ==> x.at.Some? && x.openedAt < x.stored.value < s.step)
    && (x.ended.Some? ==> x.stored.Some? && x.stored.value < x.ended.value < s.step)
    && (x.ended.None? <==> s.active[x.kind] == Some(f))
    && (x.stored.Some? ==> s.cache[x.kind].Some? && x.at.value <= s.cache[x.kind].value.at)
    && (x.at.Some? && x.stored.None? && s.cache[x.kind].Some? ==> s.cache[x.kind].value.at <= x.at.value)
  }

  predicate KindOk(s: State, k: Kind)
    requires Sized(s)
  {
    && (s.active[k].Some? ==> s.active[k].value < |s.flights| && s.flights[s.active[k].value].kind == k)
    && (s.cache[k].Some? ==>
          var e := s.cache[k].value;
          && e.flight < |s.flights| && s.flights[e.flight].kind == k
          && s.flights[e.flight].stored.Some? && s.flights[e.flight].at == Some(e.at) && e.at <= s.clock)
    && (forall c :: 0 <= c < |s.checks[k]| ==> s.checks[k][c].timeout > 0)
  }

  predicate CallerOk(ttl: nat, s: State, i: nat)
    requires Sized(s) && i < |s.callers|
  {
    var k := s.callers[i].kind;
    match s.callers[i].pc
    case Idle => true
    case Began(now, begin) => now <= s.clock && begin < s.step
    case Missed(now, begin, load) => now <= s.clock && begin < load < s.step
    case Joined(now, begin, f) =>
      && f < |s.flights| && s.flights[f].kind == k
      && (s.flights[f].ended.Some? ==> s.flights[f].ended.value > begin)
      && begin < s.step
    case Answered(now, begin, f, cached, end) =>
      && f < |s.flights| && s.flights[f].kind == k && s.flights[f].stored.Some? && s.flights[f].at.Some?
      && begin < end && s.flights[f].openedAt < end
      && (cached ==> ttl > 0 && now - s.flights[f].at.value < ttl)
      && (!cached ==> s.flights[f].ended.Some? && s.flights[f].ended.value > begin)
  }

  /** A result was stored before the load, so it was too old for the caller. */
  predicate TooOld(ttl: nat, x: Flight, now: nat, load: nat)
  {
    ttl > 0 && x.stored.Some? && x.at.Some? && x.stored.value < load ==> now - x.at.value >= ttl
  }

  /** A caller that missed, against a flight of its kind. */
  predicate MissOk(ttl: nat, s: State, i: nat, f: nat)
    requires i < |s.callers| && f < |s.flights|
  {
    s.callers[i].pc.Missed? && s.flights[f].kind == s.callers[i].kind ==>
      TooOld(ttl, s.flights[f], s.callers[i].pc.now, s.callers[i].pc.load)
  }

  /** A flight and a later one of its kind. */
  predicate PairOk(ttl: nat, s: State, f: nat, g: nat)
    requires f < |s.flights| && g < |s.flights|
  {
    f < g && s.flights[f].kind == s.flights[g].kind ==>
      && s.flights[f].ended.Some? && s.flights[f].ended.value < s.flights[g].openedAt
      && TooOld(ttl, s.flights[f], s.flights[g].leaderNow, s.flights[g].leaderLoad)
  }

  ghost predicate Inv(ttl: nat, s: State)
  {
    && Sized(s)
    && (forall f :: 0 <= f < |s.flights| ==> FlightOk(s, f))
    && (forall k: Kind :: KindOk(s, k))
    && (forall i :: 0 <= i < |s.callers| ==> CallerOk(ttl, s, i))
    && (forall i, f :: 0 <= i < |s.callers| && 0 <= f < |s.flights| ==> MissOk(ttl, s, i, f))
    && (forall f, g :: 0 <= f < |s.flights| && 0 <= g < |s.flights| ==> PairOk(ttl, s, f, g))
  }

  // ------------------------------------------------------------------
  // A call's step keeps it
  // ------------------------------------------------------------------

  lemma ProbeKeepsFlight(ttl: nat, s: State, i: nat, f: nat)
    requires Sized(s) && i < |s.callers| && ProbeStep(ttl, s, i).Some?
    requires f < |s.flights| && FlightOk(s, f) && CallerOk(ttl, s, i)
    ensures var t := ProbeStep(ttl, s, i).value;
            |t.flights| >= |s.flights| && FlightOk(t, f)
  {
    hide GatherOk, Launch, Hit;
  }

  lemma ProbeOpensFlight(ttl: nat, s: State, i: nat)
    requires Sized(s) && i < |s.callers| && ProbeStep(ttl, s, i).Some?
    requires CallerOk(ttl, s, i) && |ProbeStep(ttl, s, i).value.flights| > |s.flights|
    ensures var t := ProbeStep(ttl, s, i).value;
            |t.flights| == |s.flights| + 1 && FlightOk(t, |s.flights|)
  {
    LaunchOk(s.checks[s.callers[i].kind]);
    hide GatherOk;
  }

  lemma ProbeKeepsKind(ttl: nat, s: State, i: nat, k: Kind)
    requires Sized(s) && i < |s.callers| && ProbeStep(ttl, s, i).Some? && KindOk(s, k)
    ensures KindOk(ProbeStep(ttl, s, i).value, k)
  {
    hide Launch;
  }

  lemma ProbeKeepsItself(ttl: nat, s: State, i: nat)
    requires Sized(s) && i < |s.callers| && ProbeStep(ttl, s, i).Some?
    requires CallerOk(ttl, s, i) && KindOk(s, s.callers[i].kind)
    requires forall f :: 0 <= f < |s.flights| ==> FlightOk(s, f)
    ensures CallerOk(ttl, ProbeStep(ttl, s, i).value, i)
  {
    hide GatherOk, Launch;
    var pc, k := s.callers[i].pc, s.callers[i].kind;
    assert pc.Joined? ==> FlightOk(s, pc.flight);
    assert s.active[k].Some? ==> FlightOk(s, s.active[k].value);
    assert s.cache[k].Some? ==> FlightOk(s, s.cache[k].value.flight);
  }

  lemma ProbeKeepsOther(ttl: nat, s: State, i: nat, j: nat)
    requires Sized(s) && i < |s.callers| && j < |s.callers| && j != i && ProbeStep(ttl, s, i).Some?
    requires CallerOk(ttl, s, j)
    ensures CallerOk(ttl, ProbeStep(ttl, s, i).value, j)
  {
    hide Launch, Hit;
    var t := ProbeStep(ttl, s, i).value;
    assert t.callers[j] == s.callers[j] && t.step == s.step + 1 && t.clock == s.clock;
    assert |t.flights| >= |s.flights| && forall f :: 0 <= f < |s.flights| ==> t.flights[f] == s.flights[f];
  }

  lemma ProbeKeepsCaller(ttl: nat, s: State, i: nat, j: nat)
    requires Sized(s) && i < |s.callers| && j < |s.callers| && ProbeStep(ttl, s, i).Some?
    requires CallerOk(ttl, s, i) && CallerOk(ttl, s, j) && KindOk(s, s.callers[i].kind)
    requires forall f :: 0 <= f < |s.flights| ==> FlightOk(s, f)
    ensures CallerOk(ttl, ProbeStep(ttl, s, i).value, j)
  {
    hide ProbeStep, FlightOk, KindOk, CallerOk;
    if j == i {
      ProbeKeepsItself(ttl, s, i);
    } else {
      ProbeKeepsOther(ttl, s, i, j);
    }
  }

  lemma ProbeKeepsMiss(ttl: nat, s: State, i: nat, j: nat, f: nat)
    requires Sized(s) && i < |s.callers| && j < |s.callers| && f < |s.flights| && ProbeStep(ttl, s, i).Some?
    requires FlightOk(s, f) && MissOk(ttl, s, j, f)
    ensures var t := ProbeStep(ttl, s, i).value;
            |t.flights| >= |s.flights| && |t.callers| == |s.callers| && MissOk(ttl, t, j, f)
  {
    hide GatherOk, Launch;
  }

  lemma ProbeKeepsPair(ttl: nat, s: State, i: nat, f: nat, g: nat)
    requires Sized(s) && i < |s.callers| && ProbeStep(ttl, s, i).Some?
    requires var t := ProbeStep(ttl, s, i).value; f < |s.flights| && g < |t.flights|
    requires FlightOk(s, f) && MissOk(ttl, s, i, f) && (g < |s.flights| ==> PairOk(ttl, s, f, g))
    ensures var t := ProbeStep(ttl, s, i).value;
            f < |t.flights| && PairOk(ttl, t, f, g)
  {
    hide GatherOk, Launch;
  }

  lemma ProbeKeepsInv(ttl: nat, s: State, i: nat)
    requires Inv(ttl, s) && i < |s.callers| && ProbeStep(ttl, s, i).Some?
    ensures Inv(ttl, ProbeStep(ttl, s, i).value)
  {
    hide ProbeStep, FlightOk, KindOk, CallerOk, MissOk, PairOk;
    var t := ProbeStep(ttl, s, i).value;
    ProbeSizes(ttl, s, i);
    assert CallerOk(ttl, s, i) && KindOk(s, s.callers[i].kind);
    forall f | 0 <= f < |t.flights|
      ensures FlightOk(t, f)
    {
      if f < |s.flights| {
        ProbeKeepsFlight(ttl, s, i, f);
      } else {
        ProbeOpensFlight(ttl, s, i);
      }
    }
    forall k: Kind
      ensures KindOk(t, k)
    {
      assert KindOk(s, k);
      ProbeKeepsKind(ttl, s, i, k);
    }
    forall j | 0 <= j < |t.callers|
      ensures CallerOk(ttl, t, j)
    {
      assert CallerOk(ttl, s, j);
      ProbeKeepsCaller(ttl, s, i, j);
    }
    forall j, f | 0 <= j < |t.callers| && 0 <= f < |t.flights|
      ensures MissOk(ttl, t, j, f)
    {
      if f < |s.flights| {
        assert MissOk(ttl, s, j, f);
        ProbeKeepsMiss(ttl, s, i, j, f);
      } else {
        NewFlightUnstored(ttl, s, i, j);
      }
    }
    forall f, g | 0 <= f < |t.flights| && 0 <= g < |t.flights|
      ensures PairOk(ttl, t, f, g)
    {
      if f < |s.flights| {
        assert MissOk(ttl, s, i, f);
        assert g < |s.flights| ==> PairOk(ttl, s, f, g);
        ProbeKeepsPair(ttl, s, i, f, g);
      } else {
        PairLast(ttl, t, f, g);
      }
    }
  }

  lemma PairLast(ttl: nat, t: State, f: nat, g: nat)
    requires g <= f < |t.flights|
    ensures PairOk(ttl, t, f, g)
  {
  }

  lemma ProbeSizes(ttl: nat, s: State, i: nat)
    requires Sized(s) && i < |s.callers| && ProbeStep(ttl, s, i).Some?
    ensures var t := ProbeStep(ttl, s, i).value;
            && Sized(t) && |t.callers| == |s.callers| && |s.flights| <= |t.flights| <= |s.flights| + 1
            && (|t.flights| > |s.flights| ==> !t.callers[i].pc.Missed?)
  {
    hide Launch;
  }

  lemma NewFlightUnstored(ttl: nat, s: State, i: nat, j: nat)
    requires Sized(s) && i < |s.callers| && j < |s.callers| && ProbeStep(ttl, s, i).Some?
    requires |ProbeStep(ttl, s, i).value.flights| > |s.flights|
    ensures |ProbeStep(ttl, s, i).value.callers| == |s.callers|
    ensures MissOk(ttl, ProbeStep(ttl, s, i).value, j, |s.flights|)
  {
    hide Launch;
  }

  // ------------------------------------------------------------------
  // A flight's step keeps it
  // ------------------------------------------------------------------

  lemma FlyKeepsItself(s: State, f: nat, move: FlightMove)
    requires Sized(s) && f < |s.flights| && FlyStep(s, f, move).Some?
    requires FlightOk(s, f) && KindOk(s, s.flights[f].kind)
    ensures var t := FlyStep(s, f, move).value;
            |t.flights| == |s.flights| && FlightOk(t, f)
  {
    if move.Completes? {
      CompleteOk(s.flights[f].gather, move.check, move.fails);
    }
    hide GatherOk, CanComplete, Complete;
  }

  lemma FlyKeepsFlight(s: State, f: nat, move: FlightMove, g: nat)
    requires Sized(s) && f < |s.flights| && g < |s.flights| && f != g && FlyStep(s, f, move).Some?
    requires FlightOk(s, f) && FlightOk(s, g) && KindOk(s, s.flights[f].kind)
    ensures var t := FlyStep(s, f, move).value;
            |t.flights| == |s.flights| && FlightOk(t, g)
  {
    hide GatherOk, CanComplete, Complete;
  }

  lemma FlyKeepsKind(s: State, f: nat, move: FlightMove, k: Kind)
    requires Sized(s) && f < |s.flights| && FlyStep(s, f, move).Some? && FlightOk(s, f) && KindOk(s, k)
    ensures KindOk(FlyStep(s, f, move).value, k)
  {
    hide GatherOk, CanComplete;
  }

  lemma FlyKeepsCaller(ttl: nat, s: State, f: nat, move: FlightMove, j: nat)
    requires Sized(s) && f < |s.flights| && FlyStep(s, f, move).Some? && FlightOk(s, f)
    requires j < |s.callers| && CallerOk(ttl, s, j)
    ensures var t := FlyStep(s, f, move).value;
            t.callers == s.callers && CallerOk(ttl, t, j)
  {
    hide GatherOk, CanComplete;
  }

  lemma FlyKeepsMiss(ttl: nat, s: State, f: nat, move: FlightMove, j: nat, g: nat)
    requires Sized(s) && f < |s.flights| && g < |s.flights| && FlyStep(s, f, move).Some? && FlightOk(s, f)
    requires j < |s.callers| && CallerOk(ttl, s, j) && MissOk(ttl, s, j, g)
    ensures var t := FlyStep(s, f, move).value;
            t.callers == s.callers && |t.flights| == |s.flights| && MissOk(ttl, t, j, g)
  {
    hide GatherOk, CanComplete;
  }

  lemma FlyKeepsPair(ttl: nat, s: State, f: nat, move: FlightMove, g: nat, h: nat)
    requires Sized(s) && f < |s.flights| && g < |s.flights| && h < |s.flights| && FlyStep(s, f, move).Some?
    requires FlightOk(s, f) && FlightOk(s, g) && FlightOk(s, h) && PairOk(ttl, s, g, h)
    ensures var t := FlyStep(s, f, move).value;
            |t.flights| == |s.flights| && PairOk(ttl, t, g, h)
  {
    hide GatherOk, CanComplete;
  }

  lemma FlySizes(s: State, f: nat, move: FlightMove)
    requires Sized(s) && f < |s.flights| && FlyStep(s, f, move).Some?
    ensures var t := FlyStep(s, f, move).value; Sized(t) && t.callers == s.callers && |t.flights| == |s.flights|
  {
    hide FlightTo;
  }

  lemma FlyKeepsInv(ttl: nat, s: State, f: nat, move: FlightMove)
    requires Inv(ttl, s) && f < |s.flights| && FlyStep(s, f, move).Some?
    ensures Inv(ttl, FlyStep(s, f, move).value)
  {
    hide FlyStep, FlightOk, KindOk, CallerOk, MissOk, PairOk;
    var t := FlyStep(s, f, move).value;
    FlySizes(s, f, move);
    assert FlightOk(s, f) && KindOk(s, s.flights[f].kind);
    forall g | 0 <= g < |t.flights|
      ensures FlightOk(t, g)
    {
      if g == f {
        FlyKeepsItself(s, f, move);
      } else {
        FlyKeepsFlight(s, f, move, g);
      }
    }
    forall k: Kind
      ensures KindOk(t, k)
    {
      assert KindOk(s, k);
      FlyKeepsKind(s, f, move, k);
    }
    forall j | 0 <= j < |t.callers|
      ensures CallerOk(ttl, t, j)
    {
      assert CallerOk(ttl, s, j);
      FlyKeepsCaller(ttl, s, f, move, j);
    }
    forall j, g | 0 <= j < |t.callers| && 0 <= g < |t.flights|
      ensures MissOk(ttl, t, j, g)
    {
      assert CallerOk(ttl, s, j) && MissOk(ttl, s, j, g);
      FlyKeepsMiss(ttl, s, f, move, j, g);
    }
    forall g, h | 0 <= g < |t.flights| && 0 <= h < |t.flights|
      ensures PairOk(ttl, t, g, h)
    {
      assert FlightOk(s, g) && FlightOk(s, h) && PairOk(ttl, s, g, h);
      FlyKeepsPair(ttl, s, f, move, g, h);
    }
  }

  // ------------------------------------------------------------------
  // Every step keeps it
  // ------------------------------------------------------------------

  lemma EnvironmentKeepsInv(ttl: nat, s: State, a: Action)
    requires Inv(ttl, s) && (a.Tick? || a.Register?)
    ensures Inv(ttl, Next(ttl, s, a).value)
  {
    hide GatherOk;
    var t := Next(ttl, s, a).value;
    forall f | 0 <= f < |t.flights|
      ensures FlightOk(t, f)
    {
      assert FlightOk(s, f);
    }
    forall k: Kind
      ensures KindOk(t, k)
    {
      assert KindOk(s, k);
    }
    forall j | 0 <= j < |t.callers|
      ensures CallerOk(ttl, t, j)
    {
      assert CallerOk(ttl, s, j);
    }
    hide FlightOk, KindOk, CallerOk;
    forall j, f | 0 <= j < |t.callers| && 0 <= f < |t.flights|
      ensures MissOk(ttl, t, j, f)
    {
      assert MissOk(ttl, s, j, f);
    }
    forall f, g | 0 <= f < |t.flights| && 0 <= g < |t.flights|
      ensures PairOk(ttl, t, f, g)
    {
      assert PairOk(ttl, s, f, g);
    }
  }

  lemma StepKeepsInv(ttl: nat, s: State, a: Action)
    requires Inv(ttl, s) && Next(ttl, s, a).Some?
    ensures Inv(ttl, Next(ttl, s, a).value)
  {
    hide ProbeStep, FlyStep;
    match a
    case Probe(i) => ProbeKeepsInv(ttl, s, i);
    case Fly(f, move) => FlyKeepsInv(ttl, s, f, move);
    case _ => EnvironmentKeepsInv(ttl, s, a);
  }

  lemma {:induction false} RunKeepsInv(ttl: nat, s: State, actions: seq<Action>)
    requires Inv(ttl, s) && Exec(ttl, s, actions).Some?
    ensures Inv(ttl, Exec(ttl, s, actions).value)
    decreases actions
  {
    if actions != [] {
      StepKeepsInv(ttl, s, actions[0]);
      NextSized(ttl, s, actions[0]);
      hide Inv, Next;
      RunKeepsInv(ttl, Next(ttl, s, actions[0]).value, actions[1..]);
    }
  }

  lemma InitialInv(ttl: nat, s: State)
    requires Initial(s)
    ensures Inv(ttl, s)
  {
  }

  // ------------------------------------------------------------------
  // Theorems over every run
  // ------------------------------------------------------------------

  /** The flight was in progress at some moment between the steps at which the call
      began and was answered: opened before the latter, not ended before the former. */
  predicate OverlapsCall(x: Flight, begin: nat, end: nat)
  {
    begin < end && x.openedAt < end && (x.ended.None? || x.ended.value > begin)
  }

  /** Every answer is the outcome of one whole flight of the caller's kind: all of
      its checks finished, its errors are a permutation of exactly those that
      failed, and either it was in progress during the call or it was stamped less
      than the TTL before the call began. With caching off only the first occurs. */
  lemma AnswersAreWholeFlights(ttl: nat, s: State, actions: seq<Action>, i: nat)
    requires Initial(s) && Exec(ttl, s, actions).Some?
    requires i < |Exec(ttl, s, actions).value.callers| && Exec(ttl, s, actions).value.callers[i].pc.Answered?
    ensures var t := Exec(ttl, s, actions).value;
            var pc := t.callers[i].pc;
            && pc.flight < |t.flights|
            && var x := t.flights[pc.flight];
            && x.kind == t.callers[i].kind
            && x.gather.pending == {} && multiset(x.gather.channel) == multiset(x.gather.failed)
            && (OverlapsCall(x, pc.begin, pc.end) || (ttl > 0 && x.at.Some? && pc.now - x.at.value < ttl))
            && (ttl == 0 ==> OverlapsCall(x, pc.begin, pc.end))
  {
    InitialInv(ttl, s);
    RunKeepsInv(ttl, s, actions);
    hide Exec;
    var t := Exec(ttl, s, actions).value;
    assert CallerOk(ttl, t, i);
    var f := t.callers[i].pc.flight;
    assert FlightOk(t, f);
    GatheredAll(t.flights[f].gather);
  }

  /** No two flights of a kind are ever in progress together. */
  lemma OneFlightPerKind(ttl: nat, s: State, actions: seq<Action>, f: nat, g: nat)
    requires Initial(s) && Exec(ttl, s, actions).Some?
    requires f < g < |Exec(ttl, s, actions).value.flights|
    requires Exec(ttl, s, actions).value.flights[f].kind == Exec(ttl, s, actions).value.flights[g].kind
    ensures var t := Exec(ttl, s, actions).value;
            t.flights[f].ended.Some? && t.flights[f].ended.value < t.flights[g].openedAt
  {
    InitialInv(ttl, s);
    RunKeepsInv(ttl, s, actions);
    hide Exec;
    assert PairOk(ttl, Exec(ttl, s, actions).value, f, g);
  }

  /** With caching on, a later flight of a kind was led by a caller that loaded the
      cache before the earlier result was stored, or that began at least the TTL
      after the earlier result was stamped. */
  lemma LateLoadsAreSpaced(ttl: nat, s: State, actions: seq<Action>, f: nat, g: nat)
    requires ttl > 0 && Initial(s) && Exec(ttl, s, actions).Some?
    requires f < g < |Exec(ttl, s, actions).value.flights|
    requires Exec(ttl, s, actions).value.flights[f].kind == Exec(ttl, s, actions).value.flights[g].kind
    ensures var t := Exec(ttl, s, actions).value;
            && t.flights[f].stored.Some? && t.flights[f].at.Some?
            && (t.flights[g].leaderLoad <= t.flights[f].stored.value
                || t.flights[g].leaderNow >= t.flights[f].at.value + ttl)
  {
    InitialInv(ttl, s);
    RunKeepsInv(ttl, s, actions);
    hide Exec;
    var t := Exec(ttl, s, actions).value;
    assert PairOk(ttl, t, f, g) && FlightOk(t, f);
  }

  /** What is cached for a kind is a result of that kind, and only a flight of that
      kind ever changes it. */
  lemma KindsAreSeparate(ttl: nat, s: State, a: Action, k: Kind)
    requires Inv(ttl, s) && Next(ttl, s, a).Some?
    ensures var t := Next(ttl, s, a).value;
            && Sized(t)
            && (t.cache[k] != s.cache[k] ==>
                  a.Fly? && a.f < |s.flights| && s.flights[a.f].kind == k && a.move.Stores?)
            && (t.cache[k].Some? ==>
                  t.cache[k].value.flight < |t.flights| && t.flights[t.cache[k].value.flight].kind == k)
  {
    StepKeepsInv(ttl, s, a);
    assert KindOk(Next(ttl, s, a).value, k);
    hide FlightOk, CallerOk, MissOk, PairOk;
  }

  /** A flight keeps its kind and its snapshot. */
  lemma StepKeepsSnapshot(ttl: nat, s: State, a: Action, f: nat)
    requires Sized(s) && Next(ttl, s, a).Some? && f < |s.flights|
    ensures var t := Next(ttl, s, a).value;
            && f < |t.flights| && t.flights[f].kind == s.flights[f].kind
            && t.flights[f].gather.checks == s.flights[f].gather.checks
  {
    hide Launch;
  }

  lemma {:induction false} RunKeepsSnapshot(ttl: nat, s: State, actions: seq<Action>, f: nat)
    requires Sized(s) && Exec(ttl, s, actions).Some? && f < |s.flights|
    ensures var t := Exec(ttl, s, actions).value;
            && f < |t.flights| && t.flights[f].kind == s.flights[f].kind
            && t.flights[f].gather.checks == s.flights[f].gather.checks
    decreases actions
  {
    if actions != [] {
      NextSized(ttl, s, actions[0]);
      StepKeepsSnapshot(ttl, s, actions[0], f);
      hide Next;
      RunKeepsSnapshot(ttl, Next(ttl, s, actions[0]).value, actions[1..], f);
    }
  }

  lemma OpeningSnapshot(ttl: nat, s: State, a: Action)
    requires Sized(s) && Next(ttl, s, a).Some? && |Next(ttl, s, a).value.flights| > |s.flights|
    ensures var t := Next(ttl, s, a).value;
            var x := t.flights[|s.flights|];
            && |t.flights| == |s.flights| + 1
            && x.gather.checks == s.checks[x.kind] && x.gather.pending == Indices(|s.checks[x.kind]|)
            && t.checks == s.checks
  {
  }

  /** A flight evaluates exactly the checks its kind had when it was opened, in
      registration order and each with a positive timeout: it launches every one of
      them then, still has that snapshot at any later time, whatever is registered
      meanwhile, and none of its senders blocks. */
  lemma FlightsRunTheSnapshot(ttl: nat, s: State, before: seq<Action>, a: Action, after: seq<Action>)
    requires Initial(s) && Exec(ttl, s, before).Some? && Sized(Exec(ttl, s, before).value)
    requires Next(ttl, Exec(ttl, s, before).value, a).Some? && Sized(Next(ttl, Exec(ttl, s, before).value, a).value)
    requires |Next(ttl, Exec(ttl, s, before).value, a).value.flights| > |Exec(ttl, s, before).value.flights|
    requires Exec(ttl, Next(ttl, Exec(ttl, s, before).value, a).value, after).Some?
    ensures var u := Exec(ttl, s, before).value;
            var v := Next(ttl, u, a).value;
            var t := Exec(ttl, v, after).value;
            var f := |u.flights|;
            && f < |t.flights|
            && var x := t.flights[f];
            && v.flights[f].gather.pending == Indices(|u.checks[x.kind]|)
            && x.gather.checks == u.checks[x.kind]
            && (forall c :: 0 <= c < |x.gather.checks| ==> x.gather.checks[c].timeout > 0)
            && (forall c, fails :: c in x.gather.pending ==> CanComplete(x.gather, c, fails))
  {
    InitialInv(ttl, s);
    RunKeepsInv(ttl, s, before);
    var u := Exec(ttl, s, before).value;
    StepKeepsInv(ttl, u, a);
    OpeningSnapshot(ttl, u, a);
    var v := Next(ttl, u, a).value;
    var f := |u.flights|;
    RunKeepsInv(ttl, v, after);
    RunKeepsSnapshot(ttl, v, after, f);
    var t := Exec(ttl, v, after).value;
    hide Exec, Next, GatherOk, CanComplete;
    var x := t.flights[f];
    assert KindOk(u, x.kind) && FlightOk(t, f);
    forall c, fails | c in x.gather.pending
      ensures CanComplete(x.gather, c, fails)
    {
      NoSenderBlocks(x.gather, c, fails);
    }
  }

  lemma {:induction false} ExecAppend(ttl: nat, s: State, actions: seq<Action>, last: Action)
    requires Sized(s) && Exec(ttl, s, actions).Some? && Sized(Exec(ttl, s, actions).value)
    ensures Exec(ttl, s, actions + [last]) == Next(ttl, Exec(ttl, s, actions).value, last)
    decreases actions
  {
    if actions == [] {
      assert actions + [last] == [last];
      assert Next(ttl, s, last).Some? ==> Exec(ttl, s, [last]) == Exec(ttl, Next(ttl, s, last).value, [last][1..]);
    } else {
      NextSized(ttl, s, actions[0]);
      hide Next;
      assert (actions + [last])[1..] == actions[1..] + [last];
      ExecAppend(ttl, Next(ttl, s, actions[0]).value, actions[1..], last);
    }
  }

  /** A check is registered and two probes of its kind both load an empty cache. */
  lemma BothMiss(ttl: nat, s: State, i: nat, j: nat, c: Check) returns (actions: seq<Action>, t: State)
    requires Initial(s) && i < |s.callers| && j < |s.callers| && i != j && s.callers[i].kind == s.callers[j].kind
    ensures Exec(ttl, s, actions) == Some(t) && Sized(t) && t.flights == [] && t.clock == s.clock
    ensures |t.callers| == |s.callers| && t.callers[i].kind == t.callers[j].kind == s.callers[i].kind
    ensures t.callers[i].pc.Missed? && t.callers[i].pc.now == s.clock
    ensures t.callers[j].pc.Missed? && t.callers[j].pc.now == s.clock
    ensures t.active[s.callers[i].kind].None? && t.checks[s.callers[i].kind] == [Normalized(c)]
  {
    actions, t := [], s;
    actions, t := TakeStep(ttl, s, actions, t, Register(s.callers[i].kind, c));
    hide Exec;
    actions, t := TakeStep(ttl, s, actions, t, Probe(i));
    actions, t := TakeStep(ttl, s, actions, t, Probe(i));
    actions, t := TakeStep(ttl, s, actions, t, Probe(j));
    actions, t := TakeStep(ttl, s, actions, t, Probe(j));
  }

  /** A probe that missed leads a flight over one check, which is over at once. */
  lemma LeadsOne(ttl: nat, s: State, before: seq<Action>, u: State, i: nat, c: Check) returns (actions: seq<Action>, t: State)
    requires Sized(s) && Exec(ttl, s, before) == Some(u) && Sized(u) && i < |u.callers| && u.callers[i].pc.Missed?
    requires u.active[u.callers[i].kind].None? && u.checks[u.callers[i].kind] == [c]
    ensures Exec(ttl, s, actions) == Some(t) && Sized(t) && |t.callers| == |u.callers| && t.clock == u.clock
    ensures forall j :: 0 <= j < |u.callers| && j != i ==> t.callers[j] == u.callers[j]
    ensures t.active[u.callers[i].kind].None? && t.checks == u.checks
    ensures |t.flights| == |u.flights| + 1 && t.flights[..|u.flights|] == u.flights
    ensures RanOnce(t.flights[|u.flights|], u.callers[i], [c], u.clock)
  {
    hide Exec;
    var f := |u.flights|;
    actions, t := TakeStep(ttl, s, before, u, Probe(i));
    assert t.flights[f].gather == Launch([c]);
    OneCheck(c);
    actions, t := TakeStep(ttl, s, actions, t, Fly(f, Completes(0, false)));
    actions, t := TakeStep(ttl, s, actions, t, Fly(f, Stamps));
    actions, t := TakeStep(ttl, s, actions, t, Fly(f, Stores));
    actions, t := TakeStep(ttl, s, actions, t, Fly(f, Ends));
  }

  /** The flight of this caller has evaluated these checks, all of them, by `clock`. */
  predicate RanOnce(x: Flight, leader: Caller, checks: seq<Check>, clock: nat)
    requires leader.pc.Missed?
  {
    && x.kind == leader.kind && x.leaderNow == leader.pc.now && x.gather.checks == checks
    && x.gather.pending == {} && x.at == Some(clock) && x.ended.Some?
  }

  lemma OneCheck(c: Check)
    ensures var g := Launch([c]);
            CanComplete(g, 0, false) && Complete(g, 0, false).pending == {} && Complete(g, 0, false).checks == [c]
  {
    assert Indices(1) == {0};
  }

  lemma TakeStep(ttl: nat, s: State, before: seq<Action>, u: State, a: Action) returns (actions: seq<Action>, t: State)
    requires Sized(s) && Exec(ttl, s, before) == Some(u) && Sized(u) && Next(ttl, u, a).Some?
    ensures actions == before + [a] && t == Next(ttl, u, a).value
    ensures Exec(ttl, s, actions) == Some(t) && Sized(t)
  {
    ExecAppend(ttl, s, before, a);
    NextSized(ttl, u, a);
    actions, t := before + [a], Next(ttl, u, a).value;
  }

  /** "Flights of a kind are at least a TTL apart" is false of overlapping probes:
      whatever the TTL and whatever the check, two of them can run it twice at the same
      instant. */
  lemma OverlappingProbesRunTwice(ttl: nat, s: State, i: nat, j: nat, c: Check) returns (actions: seq<Action>)
    requires Initial(s) && i < |s.callers| && j < |s.callers| && i != j && s.callers[i].kind == s.callers[j].kind
    ensures var end := Exec(ttl, s, actions);
            && end.Some? && |end.value.flights| == 2
            && var x, y := end.value.flights[0], end.value.flights[1];
            && x.kind == y.kind && x.gather.checks == y.gather.checks == [Normalized(c)]
            && x.gather.pending == y.gather.pending == {} && x.at == y.at == Some(s.clock)
            && x.leaderNow == y.leaderNow == s.clock
  {
    hide Exec, Next, Normalized;
    var t;
    actions, t := BothMiss(ttl, s, i, j, c);
    actions, t := LeadsOne(ttl, s, actions, t, i, Normalized(c));
    ghost var first := t.flights[0];
    actions, t := LeadsOne(ttl, s, actions, t, j, Normalized(c));
    assert t.flights[0] == t.flights[..1][0] == first;
  }

  // ------------------------------------------------------------------
  // Probes that do not overlap
  // ------------------------------------------------------------------

  predicate InProgress(pc: Pc)
  {
    pc.Began? || pc.Missed? || pc.Joined?
  }

  /** No probe begins while another one of its kind is in progress. */
  predicate Solo(s: State, a: Action)
  {
    a.Probe? && a.i < |s.callers| && s.callers[a.i].pc.Idle? ==>
      forall j :: 0 <= j < |s.callers| && s.callers[j].kind == s.callers[a.i].kind ==> !InProgress(s.callers[j].pc)
  }

  predicate SoloRun(ttl: nat, s: State, actions: seq<Action>)
    requires Sized(s)
    decreases actions
  {
    actions != [] ==>
      && Solo(s, actions[0])
      && (Next(ttl, s, actions[0]).Some? ==>
            (NextSized(ttl, s, actions[0]);
             SoloRun(ttl, Next(ttl, s, actions[0]).value, actions[1..])))
  }

  /** Two probes in progress are of different kinds. */
  predicate AloneOk(s: State, i: nat, j: nat)
    requires i < |s.callers| && j < |s.callers|
  {
    i != j && InProgress(s.callers[i].pc) && InProgress(s.callers[j].pc) ==> s.callers[i].kind != s.callers[j].kind
  }

  /** A flight that is not over has a caller waiting for it. */
  predicate AttendedOk(s: State, f: nat)
    requires f < |s.flights|
  {
    s.flights[f].ended.None? ==>
      exists i :: 0 <= i < |s.callers| && s.callers[i].kind == s.flights[f].kind
                  && s.callers[i].pc.Joined? && s.callers[i].pc.flight == f
  }

  /** Every other flight of its kind was over before a probe in progress began. */
  predicate AfterOk(s: State, i: nat, f: nat)
    requires i < |s.callers| && f < |s.flights|
  {
    var pc := s.callers[i].pc;
    InProgress(pc) && s.callers[i].kind == s.flights[f].kind && !(pc.Joined? && pc.flight == f) ==>
      s.flights[f].ended.Some? && s.flights[f].ended.value < pc.begin
  }

  /** A later flight's leader loaded the cache when the earlier result was in it. */
  predicate LoadedOk(s: State, f: nat, g: nat)
    requires f < |s.flights| && g < |s.flights|
  {
    f < g && s.flights[f].kind == s.flights[g].kind ==>
      s.flights[f].stored.Some? && s.flights[f].stored.value < s.flights[g].leaderLoad
  }

  ghost predicate SoloInv(s: State)
  {
    && (forall i, j :: 0 <= i < |s.callers| && 0 <= j < |s.callers| ==> AloneOk(s, i, j))
    && (forall f :: 0 <= f < |s.flights| ==> AttendedOk(s, f))
    && (forall i, f :: 0 <= i < |s.callers| && 0 <= f < |s.flights| ==> AfterOk(s, i, f))
    && (forall f, g :: 0 <= f < |s.flights| && 0 <= g < |s.flights| ==> LoadedOk(s, f, g))
  }

  /** What a step of a probe changes: its caller, and one flight more when it
      leads. A probe that missed leads, for no flight of its kind is in progress. */
  predicate ProbeMoved(s: State, t: State, i: nat)
    requires i < |s.callers|
  {
    && t.step == s.step + 1 && |t.callers| == |s.callers| && t.callers[i].kind == s.callers[i].kind
    && (forall j :: 0 <= j < |s.callers| && j != i ==> t.callers[j] == s.callers[j])
    && |s.flights| <= |t.flights| <= |s.flights| + 1
    && (forall f :: 0 <= f < |s.flights| ==> t.flights[f] == s.flights[f])
    && match s.callers[i].pc {
         case Idle => |t.flights| == |s.flights| && t.callers[i].pc.Began? && t.callers[i].pc.begin == s.step
         case Began(_, begin) =>
           |t.flights| == |s.flights| && (t.callers[i].pc.Answered? || (t.callers[i].pc.Missed? && t.callers[i].pc.begin == begin))
         case Missed(_, begin, load) =>
           && |t.flights| == |s.flights| + 1
           && t.callers[i].pc.Joined? && t.callers[i].pc.begin == begin && t.callers[i].pc.flight == |s.flights|
           && t.flights[|s.flights|].kind == s.callers[i].kind && t.flights[|s.flights|].leaderLoad == load
         case Joined(_, _, f) =>
           && |t.flights| == |s.flights| && t.callers[i].pc.Answered?
           && f < |s.flights| && s.flights[f].ended.Some?
         case _ => false
       }
  }

  lemma SoloProbeMoves(ttl: nat, s: State, i: nat)
    requires Sized(s) && i < |s.callers| && ProbeStep(ttl, s, i).Some? && KindOk(s, s.callers[i].kind)
    requires forall f :: 0 <= f < |s.flights| ==> FlightOk(s, f) && AfterOk(s, i, f)
    ensures ProbeMoved(s, ProbeStep(ttl, s, i).value, i)
  {
    hide Launch, GatherOk;
    var k := s.callers[i].kind;
    assert s.active[k].Some? ==> FlightOk(s, s.active[k].value) && AfterOk(s, i, s.active[k].value);
  }

  lemma ProbeKeepsAlone(s: State, t: State, i: nat, j: nat, k: nat)
    requires i < |s.callers| && j < |s.callers| && k < |s.callers|
    requires ProbeMoved(s, t, i) && Solo(s, Probe(i)) && AloneOk(s, j, k)
    ensures AloneOk(t, j, k)
  {
  }

  lemma ProbeKeepsAttended(s: State, t: State, i: nat, f: nat)
    requires i < |s.callers| && ProbeMoved(s, t, i) && f < |t.flights| && (f < |s.flights| ==> AttendedOk(s, f))
    ensures AttendedOk(t, f)
  {
    if f < |s.flights| {
      if s.flights[f].ended.None? {
        var j :| 0 <= j < |s.callers| && s.callers[j].kind == s.flights[f].kind
                 && s.callers[j].pc.Joined? && s.callers[j].pc.flight == f;
        assert j != i;
        assert t.callers[j] == s.callers[j];
      }
    } else {
      assert t.callers[i].pc.Joined?;
    }
  }

  lemma ProbeKeepsAfter(s: State, t: State, i: nat, j: nat, f: nat)
    requires i < |s.callers| && j < |s.callers| && ProbeMoved(s, t, i) && f < |t.flights|
    requires AloneOk(s, i, j) && Solo(s, Probe(i)) && (f < |s.flights| ==> AfterOk(s, j, f) && AttendedOk(s, f))
    requires f < |s.flights| && s.flights[f].ended.Some? ==> s.flights[f].ended.value < s.step
    ensures AfterOk(t, j, f)
  {
  }

  lemma ProbeKeepsLoaded(s: State, t: State, i: nat, f: nat, g: nat)
    requires i < |s.callers| && ProbeMoved(s, t, i) && f < |s.flights| && g < |t.flights|
    requires AfterOk(s, i, f) && (g < |s.flights| ==> LoadedOk(s, f, g))
    requires s.callers[i].pc.Missed? ==> s.callers[i].pc.begin < s.callers[i].pc.load
    requires s.flights[f].ended.Some? ==> s.flights[f].stored.Some? && s.flights[f].stored.value < s.flights[f].ended.value
    ensures LoadedOk(t, f, g)
  {
  }

  lemma ProbeStaysSolo(ttl: nat, s: State, i: nat)
    requires Inv(ttl, s) && SoloInv(s) && i < |s.callers| && ProbeStep(ttl, s, i).Some? && Solo(s, Probe(i))
    ensures SoloInv(ProbeStep(ttl, s, i).value)
  {
    var t := ProbeStep(ttl, s, i).value;
    assert CallerOk(ttl, s, i) && KindOk(s, s.callers[i].kind);
    forall f | 0 <= f < |s.flights|
      ensures FlightOk(s, f) && AfterOk(s, i, f)
    {
    }
    SoloProbeMoves(ttl, s, i);
    assert s.callers[i].pc.Missed? ==> s.callers[i].pc.begin < s.callers[i].pc.load;
    assert forall f :: 0 <= f < |s.flights| && s.flights[f].ended.Some? ==>
             && s.flights[f].ended.value < s.step
             && s.flights[f].stored.Some? && s.flights[f].stored.value < s.flights[f].ended.value by {
      forall f | 0 <= f < |s.flights| && s.flights[f].ended.Some?
        ensures s.flights[f].ended.value < s.step
        ensures s.flights[f].stored.Some? && s.flights[f].stored.value < s.flights[f].ended.value
      {
        assert FlightOk(s, f);
      }
    }
    assert |t.callers| == |s.callers| && |s.flights| <= |t.flights| <= |s.flights| + 1;
    hide ProbeStep, Inv, FlightOk, KindOk, CallerOk, Solo, ProbeMoved, AloneOk, AttendedOk, AfterOk, LoadedOk;
    forall j, k | 0 <= j < |t.callers| && 0 <= k < |t.callers|
      ensures AloneOk(t, j, k)
    {
      assert AloneOk(s, j, k);
      ProbeKeepsAlone(s, t, i, j, k);
    }
    forall f | 0 <= f < |t.flights|
      ensures AttendedOk(t, f)
    {
      ProbeKeepsAttended(s, t, i, f);
    }
    forall j, f | 0 <= j < |t.callers| && 0 <= f < |t.flights|
      ensures AfterOk(t, j, f)
    {
      assert AloneOk(s, i, j);
      assert f < |s.flights| ==> AfterOk(s, j, f) && AttendedOk(s, f);
      ProbeKeepsAfter(s, t, i, j, f);
    }
    forall f, g | 0 <= f < |t.flights| && 0 <= g < |t.flights|
      ensures LoadedOk(t, f, g)
    {
      if f < |s.flights| {
        assert AfterOk(s, i, f);
        assert g < |s.flights| ==> LoadedOk(s, f, g);
        ProbeKeepsLoaded(s, t, i, f, g);
      } else {
        LoadedLast(t, f, g);
      }
    }
  }

  lemma LoadedLast(t: State, f: nat, g: nat)
    requires g <= f < |t.flights|
    ensures LoadedOk(t, f, g)
  {
  }

  /** Steps of flights and of the environment leave calls alone, end a flight only
      when it is in progress, and never take back what a flight stored. */
  predicate OthersMoved(s: State, t: State)
  {
    && t.callers == s.callers && |t.flights| == |s.flights|
    && forall f :: 0 <= f < |s.flights| ==>
         && t.flights[f].kind == s.flights[f].kind && t.flights[f].leaderLoad == s.flights[f].leaderLoad
         && (s.flights[f].ended.Some? ==> t.flights[f].ended == s.flights[f].ended)
         && (s.flights[f].stored.Some? ==> t.flights[f].stored == s.flights[f].stored)
  }

  lemma SoloOthersMove(ttl: nat, s: State, a: Action)
    requires Sized(s) && !a.Probe? && Next(ttl, s, a).Some?
    ensures OthersMoved(s, Next(ttl, s, a).value)
  {
    hide CanComplete, Complete;
  }

  lemma OthersStaySolo(s: State, t: State)
    requires SoloInv(s) && OthersMoved(s, t)
    ensures SoloInv(t)
  {
    forall j, k | 0 <= j < |t.callers| && 0 <= k < |t.callers|
      ensures AloneOk(t, j, k)
    {
      assert AloneOk(s, j, k);
    }
    forall f | 0 <= f < |t.flights|
      ensures AttendedOk(t, f)
    {
      assert AttendedOk(s, f);
    }
    forall j, f | 0 <= j < |t.callers| && 0 <= f < |t.flights|
      ensures AfterOk(t, j, f)
    {
      assert AfterOk(s, j, f);
    }
    forall f, g | 0 <= f < |t.flights| && 0 <= g < |t.flights|
      ensures LoadedOk(t, f, g)
    {
      assert LoadedOk(s, f, g);
    }
  }

  lemma StepStaysSolo(ttl: nat, s: State, a: Action)
    requires Inv(ttl, s) && SoloInv(s) && Next(ttl, s, a).Some? && Solo(s, a)
    ensures SoloInv(Next(ttl, s, a).value)
  {
    hide ProbeStep, FlyStep, SoloInv, OthersMoved, Solo;
    if a.Probe? {
      ProbeStaysSolo(ttl, s, a.i);
    } else {
      SoloOthersMove(ttl, s, a);
      OthersStaySolo(s, Next(ttl, s, a).value);
    }
  }

  lemma {:induction false} RunStaysSolo(ttl: nat, s: State, actions: seq<Action>)
    requires Inv(ttl, s) && SoloInv(s) && Exec(ttl, s, actions).Some? && SoloRun(ttl, s, actions)
    ensures SoloInv(Exec(ttl, s, actions).value)
    decreases actions
  {
    if actions != [] {
      StepKeepsInv(ttl, s, actions[0]);
      NextSized(ttl, s, actions[0]);
      StepStaysSolo(ttl, s, actions[0]);
      hide Inv, SoloInv, Next, Solo;
      RunStaysSolo(ttl, Next(ttl, s, actions[0]).value, actions[1..]);
    }
  }

  /** Any two flights of a kind are at least the TTL apart: the caller leading the
      later one took the time no earlier than the TTL after the earlier result. */
  predicate Spaced(ttl: nat, t: State)
  {
    forall f, g :: 0 <= f < g < |t.flights| && t.flights[f].kind == t.flights[g].kind ==>
      t.flights[f].at.Some? && t.flights[g].leaderNow >= t.flights[f].at.value + ttl
  }

  /** In every run in which no probe begins while another one of its kind is in
      progress, the checks of a kind run at most once per TTL. */
  lemma FlightsAreSpaced(ttl: nat, s: State, actions: seq<Action>)
    requires ttl > 0 && Initial(s) && SoloRun(ttl, s, actions) && Exec(ttl, s, actions).Some?
    ensures Spaced(ttl, Exec(ttl, s, actions).value)
  {
    InitialInv(ttl, s);
    RunStaysSolo(ttl, s, actions);
    hide Exec, SoloRun;
    var t := Exec(ttl, s, actions).value;
    forall f, g | 0 <= f < g < |t.flights| && t.flights[f].kind == t.flights[g].kind
      ensures t.flights[f].at.Some? && t.flights[g].leaderNow >= t.flights[f].at.value + ttl
    {
      assert LoadedOk(t, f, g);
      LateLoadsAreSpaced(ttl, s, actions, f, g);
    }
  }

  predicate KindsDiffer(s: State)
  {
    forall i, j :: 0 <= i < |s.callers| && 0 <= j < |s.callers| && i != j ==> s.callers[i].kind != s.callers[j].kind
  }

  lemma {:induction false} DifferentKindsAreSolo(ttl: nat, s: State, actions: seq<Action>)
    requires Sized(s) && KindsDiffer(s)
    ensures SoloRun(ttl, s, actions)
    decreases actions
  {
    if actions != [] && Next(ttl, s, actions[0]).Some? {
      NextSized(ttl, s, actions[0]);
      assert KindsDiffer(Next(ttl, s, actions[0]).value) by {
        hide CanComplete, Complete, Launch;
      }
      DifferentKindsAreSolo(ttl, Next(ttl, s, actions[0]).value, actions[1..]);
    }
  }

  predicate RunIsSpaced(ttl: nat, s: State, actions: seq<Action>)
    requires Sized(s)
  {
    Exec(ttl, s, actions).Some? ==> Spaced(ttl, Exec(ttl, s, actions).value)
  }

  /** Exactly when flights are spaced however the calls interleave: if and only if no
      two of them are probes of one kind. */
  lemma AlwaysSpacedIff(ttl: nat, s: State)
    requires ttl > 0 && Initial(s)
    ensures (forall actions: seq<Action> :: RunIsSpaced(ttl, s, actions)) <==> KindsDiffer(s)
  {
    hide Exec, SoloRun;
    if KindsDiffer(s) {
      forall actions: seq<Action>
        ensures RunIsSpaced(ttl, s, actions)
      {
        DifferentKindsAreSolo(ttl, s, actions);
        if Exec(ttl, s, actions).Some? {
          FlightsAreSpaced(ttl, s, actions);
        }
      }
    } else {
      var i, j :| 0 <= i < |s.callers| && 0 <= j < |s.callers| && i != j && s.callers[i].kind == s.callers[j].kind;
      var actions := OverlappingProbesRunTwice(ttl, s, i, j, Check(0, 1));
      assert !RunIsSpaced(ttl, s, actions);
    }
  }

  // ------------------------------------------------------------------
  // What the configured TTL means
  // ------------------------------------------------------------------

  /** What a caller may rely on, in terms of the TTL given to the constructor: with
      a negative one every answer is a flight in progress during the call; with zero
      it may instead be less than a second old, and else less than the TTL. */
  lemma FreshnessByConfiguration(requested: int, s: State, actions: seq<Action>, i: nat)
    requires Initial(s) && Exec(CacheTTL(requested), s, actions).Some?
    requires i < |Exec(CacheTTL(requested), s, actions).value.callers|
    requires Exec(CacheTTL(requested), s, actions).value.callers[i].pc.Answered?
    ensures var t := Exec(CacheTTL(requested), s, actions).value;
            var pc := t.callers[i].pc;
            && pc.flight < |t.flights|
            && var x := t.flights[pc.flight];
            || OverlapsCall(x, pc.begin, pc.end)
            || (requested == 0 && x.at.Some? && pc.now - x.at.value < 1_000_000_000)
            || (requested > 0 && x.at.Some? && pc.now - x.at.value < requested)
  {
    AnswersAreWholeFlights(CacheTTL(requested), s, actions, i);
  }

  // ------------------------------------------------------------------
  // Answers follow from what the checks returned
  // ------------------------------------------------------------------

  /** The checks of flight `f` that failed, by what happened. */
  function Failures(actions: seq<Action>, f: nat): set<nat>
  {
    set a | a in actions && a.Fly? && a.f == f && a.move.Completes? && a.move.fails :: a.move.check
  }

  /** The checks of flight `f` that have come back. */
  function Completions(actions: seq<Action>, f: nat): set<nat>
  {
    set a | a in actions && a.Fly? && a.f == f && a.move.Completes? :: a.move.check
  }

  function Registrations(actions: seq<Action>): seq<(Kind, Check)>
  {
    if actions == [] then [] else
      var before, last := actions[..|actions| - 1], actions[|actions| - 1];
      Registrations(before) + (if last.Register? then [(last.kind, last.check)] else [])
  }

  lemma FailuresLast(before: seq<Action>, a: Action, f: nat)
    ensures var c := a.Fly? && a.f == f && a.move.Completes?;
            && Failures(before + [a], f) == Failures(before, f) + (if c && a.move.fails then {a.move.check} else {})
            && Completions(before + [a], f) == Completions(before, f) + (if c then {a.move.check} else {})
  {
    assert forall x :: x in before + [a] <==> x in before || x == a;
  }

  /** The fan-in holds what its checks returned. */
  predicate Holds(g: Gather, failed: set<nat>, done: set<nat>)
  {
    && g.failed == failed && done <= Indices(|g.checks|)
    && g.pending == Indices(|g.checks|) - done
  }

  predicate HoldsResults(s: State, f: nat, actions: seq<Action>)
    requires f < |s.flights|
  {
    Holds(s.flights[f].gather, Failures(actions, f), Completions(actions, f))
  }

  lemma LaunchHolds(checks: seq<Check>)
    ensures Holds(Launch(checks), {}, {})
  {
  }

  lemma CompleteHolds(g: Gather, c: nat, fails: bool, failed: set<nat>, done: set<nat>)
    requires GatherOk(g) && CanComplete(g, c, fails) && Holds(g, failed, done)
    ensures Holds(Complete(g, c, fails), failed + (if fails then {c} else {}), done + {c})
  {
    CompleteOk(g, c, fails);
    hide GatherOk, Complete;
  }

  predicate NotYet(f: nat, actions: seq<Action>)
  {
    forall a :: a in actions ==> !(a.Fly? && a.f >= f)
  }

  lemma {:induction false} ExecPrefix(ttl: nat, s: State, actions: seq<Action>)
    requires Sized(s) && actions != [] && Exec(ttl, s, actions).Some?
    ensures var init := actions[..|actions| - 1];
            && Exec(ttl, s, init).Some? && Sized(Exec(ttl, s, init).value)
            && Exec(ttl, s, actions) == Next(ttl, Exec(ttl, s, init).value, actions[|actions| - 1])
    decreases actions
  {
    NextSized(ttl, s, actions[0]);
    hide Next;
    if |actions| == 1 {
      assert actions[1..] == [] && actions[..0] == [];
    } else {
      var rest := actions[1..];
      assert rest[..|rest| - 1] == actions[..|actions| - 1][1..];
      ExecPrefix(ttl, Next(ttl, s, actions[0]).value, rest);
    }
  }

  /** What a step does to the fan-in of flight `g`. */
  lemma FlyGathers(s: State, f: nat, move: FlightMove, g: nat)
    requires Sized(s) && f < |s.flights| && g < |s.flights| && FlyStep(s, f, move).Some?
    ensures var x, y := s.flights[g].gather, FlyStep(s, f, move).value.flights[g].gather;
            if f == g && move.Completes?
            then CanComplete(x, move.check, move.fails) && y == Complete(x, move.check, move.fails) else y == x
  {
    hide CanComplete, Complete;
  }

  lemma FlyHolds(s: State, f: nat, move: FlightMove, g: nat, before: seq<Action>)
    requires Sized(s) && f < |s.flights| && g < |s.flights| && FlyStep(s, f, move).Some? && GatherOk(s.flights[f].gather)
    requires HoldsResults(s, g, before) && |FlyStep(s, f, move).value.flights| == |s.flights|
    ensures HoldsResults(FlyStep(s, f, move).value, g, before + [Fly(f, move)])
  {
    hide Failures, Completions, GatherOk, Complete, CanComplete, FlyStep, Holds;
    FailuresLast(before, Fly(f, move), g);
    FlyGathers(s, f, move, g);
    var failed, done := Failures(before, g), Completions(before, g);
    if f == g && move.Completes? {
      CompleteHolds(s.flights[f].gather, move.check, move.fails, failed, done);
    } else {
      assert failed + {} == failed && done + {} == done;
    }
  }

  lemma ProbeGathers(ttl: nat, s: State, i: nat, g: nat)
    requires Sized(s) && i < |s.callers| && ProbeStep(ttl, s, i).Some? && g < |ProbeStep(ttl, s, i).value.flights|
    ensures var y := ProbeStep(ttl, s, i).value.flights[g].gather;
            if g < |s.flights| then y == s.flights[g].gather else y == Launch(s.checks[s.callers[i].kind])
  {
    hide Launch, Hit;
  }

  lemma NothingYet(before: seq<Action>, g: nat)
    requires NotYet(g, before)
    ensures Failures(before, g) == {} && Completions(before, g) == {}
  {
  }

  lemma ProbeHolds(ttl: nat, s: State, i: nat, g: nat, before: seq<Action>)
    requires Sized(s) && i < |s.callers| && ProbeStep(ttl, s, i).Some? && g < |ProbeStep(ttl, s, i).value.flights|
    requires g < |s.flights| ==> HoldsResults(s, g, before)
    requires g >= |s.flights| ==> NotYet(g, before)
    ensures HoldsResults(ProbeStep(ttl, s, i).value, g, before + [Probe(i)])
  {
    hide Failures, Completions, Launch, ProbeStep, Holds, NotYet;
    FailuresLast(before, Probe(i), g);
    ProbeGathers(ttl, s, i, g);
    var failed, done := Failures(before, g), Completions(before, g);
    assert failed + {} == failed && done + {} == done;
    if g >= |s.flights| {
      NothingYet(before, g);
      LaunchHolds(s.checks[s.callers[i].kind]);
    }
  }

  lemma QuietHolds(s: State, t: State, a: Action, g: nat, before: seq<Action>)
    requires g < |s.flights| && t.flights == s.flights && !a.Fly? && HoldsResults(s, g, before)
    ensures HoldsResults(t, g, before + [a])
  {
    hide Failures, Completions, Holds;
    FailuresLast(before, a, g);
    assert Failures(before, g) + {} == Failures(before, g) && Completions(before, g) + {} == Completions(before, g);
  }

  lemma StepHolds(ttl: nat, s: State, a: Action, g: nat, before: seq<Action>)
    requires Sized(s) && Next(ttl, s, a).Some? && g < |Next(ttl, s, a).value.flights|
    requires forall f :: 0 <= f < |s.flights| ==> GatherOk(s.flights[f].gather) && HoldsResults(s, f, before)
    requires NotYet(|s.flights|, before)
    ensures HoldsResults(Next(ttl, s, a).value, g, before + [a])
  {
    hide HoldsResults, ProbeStep, FlyStep, GatherOk;
    match a
    case Probe(i) => ProbeHolds(ttl, s, i, g, before);
    case Fly(f, move) =>
      FlySizes(s, f, move);
      FlyHolds(s, f, move, g, before);
    case _ => QuietHolds(s, Next(ttl, s, a).value, a, g, before);
  }

  lemma StepNotYet(ttl: nat, s: State, a: Action, before: seq<Action>)
    requires Sized(s) && Next(ttl, s, a).Some? && NotYet(|s.flights|, before)
    ensures NotYet(|Next(ttl, s, a).value.flights|, before + [a])
  {
    assert forall x :: x in before + [a] <==> x in before || x == a;
    hide Launch, FlightTo;
  }

  lemma {:induction false} RunHolds(ttl: nat, s: State, actions: seq<Action>)
    requires Initial(s) && Exec(ttl, s, actions).Some?
    ensures var t := Exec(ttl, s, actions).value;
            && NotYet(|t.flights|, actions)
            && forall f :: 0 <= f < |t.flights| ==> HoldsResults(t, f, actions)
    decreases actions
  {
    if actions != [] {
      ExecPrefix(ttl, s, actions);
      var init, last := actions[..|actions| - 1], actions[|actions| - 1];
      InitialInv(ttl, s);
      hide Exec, Next, HoldsResults, NotYet, Inv;
      RunHolds(ttl, s, init);
      RunKeepsInv(ttl, s, init);
      var u, t := Exec(ttl, s, init).value, Exec(ttl, s, actions).value;
      InvGathers(ttl, u);
      assert init + [last] == actions;
      StepNotYet(ttl, u, last, init);
      forall f | 0 <= f < |t.flights|
        ensures HoldsResults(t, f, actions)
      {
        StepHolds(ttl, u, last, f, init);
      }
    }
  }

  lemma InvGathers(ttl: nat, s: State)
    requires Inv(ttl, s)
    ensures forall f :: 0 <= f < |s.flights| ==> GatherOk(s.flights[f].gather)
  {
    hide GatherOk, KindOk, CallerOk, MissOk, PairOk;
    forall f | 0 <= f < |s.flights|
      ensures GatherOk(s.flights[f].gather)
    {
      assert FlightOk(s, f);
    }
  }

  /** What a caller is told follows from what the checks returned: the errors of its
      flight are a permutation of exactly the checks that failed in it, there are none
      exactly when none failed, and every check of the flight has come back. */
  lemma AnswersAreTheFailures(ttl: nat, s: State, actions: seq<Action>, i: nat)
    requires Initial(s) && Exec(ttl, s, actions).Some?
    requires i < |Exec(ttl, s, actions).value.callers| && Exec(ttl, s, actions).value.callers[i].pc.Answered?
    ensures var t := Exec(ttl, s, actions).value;
            var f := t.callers[i].pc.flight;
            && f < |t.flights|
            && var errs := t.flights[f].gather.channel;
            && multiset(errs) == multiset(Failures(actions, f))
            && (errs == [] <==> forall c :: Fly(f, Completes(c, true)) !in actions)
            && Completions(actions, f) == Indices(|t.flights[f].gather.checks|)
  {
    AnswersAreWholeFlights(ttl, s, actions, i);
    RunHolds(ttl, s, actions);
    hide Exec, Failures, Completions;
    var t := Exec(ttl, s, actions).value;
    var f := t.callers[i].pc.flight;
    var g := t.flights[f].gather;
    assert HoldsResults(t, f, actions);
    assert forall c :: c in Indices(|g.checks|) && c !in Completions(actions, f) ==> c in g.pending;
    EmptyIff(g.channel, Failures(actions, f));
    NoFailures(actions, f);
  }

  lemma NoFailures(actions: seq<Action>, f: nat)
    ensures Failures(actions, f) == {} <==> forall c :: Fly(f, Completes(c, true)) !in actions
  {
    if c :| Fly(f, Completes(c, true)) in actions {
      assert c in Failures(actions, f);
    }
    if Failures(actions, f) != {} {
      var c :| c in Failures(actions, f);
      var a :| a in actions && a.Fly? && a.f == f && a.move.Completes? && a.move.fails && a.move.check == c;
      assert a == Fly(f, Completes(c, true));
    }
  }

  lemma EmptyIff(errs: seq<nat>, failed: set<nat>)
    requires multiset(errs) == multiset(failed)
    ensures errs == [] <==> failed == {}
  {
    assert |multiset(errs)| == |errs| && |multiset(failed)| == |failed|;
  }

  /** The checks a kind has at any time are those registered for it, in order. */
  lemma {:induction false} ChecksAreRegistered(ttl: nat, s: State, actions: seq<Action>, k: Kind)
    requires Initial(s) && Exec(ttl, s, actions).Some?
    ensures Sized(Exec(ttl, s, actions).value)
    ensures Exec(ttl, s, actions).value.checks[k] == OfKind(Registrations(actions), k)
    decreases actions
  {
    if actions != [] {
      ExecPrefix(ttl, s, actions);
      var init, last := actions[..|actions| - 1], actions[|actions| - 1];
      ChecksAreRegistered(ttl, s, init, k);
      var u := Exec(ttl, s, init).value;
      NextSized(ttl, u, last);
      StepRegisters(ttl, u, last, k);
      hide Exec, Next, Normalized;
      var regs := Registrations(init);
      if last.Register? {
        assert (regs + [(last.kind, last.check)])[..|regs|] == regs;
      } else {
        assert regs + [] == regs;
      }
    }
  }

  lemma StepRegisters(ttl: nat, s: State, a: Action, k: Kind)
    requires Sized(s) && Next(ttl, s, a).Some? && Sized(Next(ttl, s, a).value)
    ensures Next(ttl, s, a).value.checks[k] ==
            s.checks[k] + (if a.Register? && a.kind == k then [Normalized(a.check)] else [])
  {
    hide Launch, FlightTo, Normalized;
    assert s.checks[k] + [] == s.checks[k];
  }

  // ------------------------------------------------------------------
  // Results are stamped with the time they are made
  // ------------------------------------------------------------------

  lemma StepKeepsStamp(ttl: nat, s: State, a: Action, f: nat)
    requires Sized(s) && Next(ttl, s, a).Some? && f < |s.flights| && s.flights[f].at.Some?
    ensures var t := Next(ttl, s, a).value; f < |t.flights| && t.flights[f].at == s.flights[f].at
  {
    hide Launch, CanComplete, Complete;
  }

  lemma {:induction false} RunKeepsStamp(ttl: nat, s: State, actions: seq<Action>, f: nat)
    requires Sized(s) && Exec(ttl, s, actions).Some? && f < |s.flights| && s.flights[f].at.Some?
    ensures var t := Exec(ttl, s, actions).value; f < |t.flights| && t.flights[f].at == s.flights[f].at
    decreases actions
  {
    if actions != [] {
      NextSized(ttl, s, actions[0]);
      StepKeepsStamp(ttl, s, actions[0], f);
      hide Next;
      RunKeepsStamp(ttl, Next(ttl, s, actions[0]).value, actions[1..], f);
    }
  }

  /** A result carries for good the time at which it was made, all its checks being back
      then. */
  lemma StampIsTheTime(ttl: nat, s: State, f: nat, after: seq<Action>)
    requires Sized(s) && Next(ttl, s, Fly(f, Stamps)).Some? && Sized(Next(ttl, s, Fly(f, Stamps)).value)
    requires Exec(ttl, Next(ttl, s, Fly(f, Stamps)).value, after).Some?
    ensures var t := Exec(ttl, Next(ttl, s, Fly(f, Stamps)).value, after).value;
            f < |s.flights| && s.flights[f].gather.pending == {} && f < |t.flights| && t.flights[f].at == Some(s.clock)
  {
    RunKeepsStamp(ttl, Next(ttl, s, Fly(f, Stamps)).value, after, f);
  }

  // ------------------------------------------------------------------
  // Every probe can be answered
  // ------------------------------------------------------------------

  function Rank(pc: Pc): nat
  {
    match pc
    case Idle => 4
    case Began(_, _) => 3
    case Missed(_, _, _) => 2
    case Joined(_, _, _) => 1
    case Answered(_, _, _, _, _) => 0
  }

  /** What a flight has before it. */
  function Ahead(x: Flight): nat
  {
    |x.gather.pending| + (if x.at.None? then 1 else 0) + (if x.stored.None? then 1 else 0) + (if x.ended.None? then 1 else 0)
  }

  /** A step of a flight that is not over: its checks pass, one by one, and it ends. */
  lemma FlightMoves(s: State, f: nat) returns (move: FlightMove)
    requires Sized(s) && f < |s.flights| && FlightOk(s, f) && s.flights[f].ended.None?
    ensures FlyStep(s, f, move).Some?
    ensures var t := FlyStep(s, f, move).value;
            |t.flights| == |s.flights| && t.callers == s.callers && Ahead(t.flights[f]) < Ahead(s.flights[f])
  {
    var x := s.flights[f];
    if x.at.None? && x.gather.pending != {} {
      var c :| c in x.gather.pending;
      move := Completes(c, false);
      assert c in x.gather.pending && |x.gather.pending - {c}| < |x.gather.pending|;
    } else if x.at.None? {
      move := Stamps;
    } else if x.stored.None? {
      move := Stores;
    } else {
      move := Ends;
    }
    hide GatherOk;
  }

  lemma ProbeMoves(ttl: nat, s: State, i: nat)
    requires Sized(s) && i < |s.callers| && !s.callers[i].pc.Answered?
    requires var pc := s.callers[i].pc; pc.Joined? ==> pc.flight < |s.flights| && s.flights[pc.flight].ended.Some?
    ensures ProbeStep(ttl, s, i).Some?
    ensures var t := ProbeStep(ttl, s, i).value;
            |t.callers| == |s.callers| && Rank(t.callers[i].pc) < Rank(s.callers[i].pc)
  {
    hide Launch, Hit;
  }

  /** No probe is ever stuck: from every state of a run any probe can be brought to its
      answer. */
  lemma {:induction false} EveryProbeCanBeAnswered(ttl: nat, s: State, i: nat) returns (actions: seq<Action>)
    requires Inv(ttl, s) && i < |s.callers|
    ensures Exec(ttl, s, actions).Some?
    ensures i < |Exec(ttl, s, actions).value.callers| && Exec(ttl, s, actions).value.callers[i].pc.Answered?
    decreases Rank(s.callers[i].pc),
              if s.callers[i].pc.Joined? && s.callers[i].pc.flight < |s.flights| then Ahead(s.flights[s.callers[i].pc.flight]) else 0
  {
    var pc := s.callers[i].pc;
    assert CallerOk(ttl, s, i);
    if pc.Answered? {
      actions := [];
    } else {
      var a: Action;
      if pc.Joined? && s.flights[pc.flight].ended.None? {
        assert FlightOk(s, pc.flight);
        var move := FlightMoves(s, pc.flight);
        a := Fly(pc.flight, move);
      } else {
        ProbeMoves(ttl, s, i);
        a := Probe(i);
      }
      StepKeepsInv(ttl, s, a);
      NextSized(ttl, s, a);
      hide Inv, FlightOk, CallerOk, ProbeStep, FlyStep, Ahead;
      var rest := EveryProbeCanBeAnswered(ttl, Next(ttl, s, a).value, i);
      actions := [a] + rest;
      assert actions[1..] == rest;
    }
  }
}
