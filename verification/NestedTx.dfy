/** `TxManager.WithTx` over a driver with savepoints, and the plain nested
    all-or-nothing semantics it implements. */
module NestedTx {
  import opened Common
  import opened Contexts

  type Stmt = int

  datatype Error =
    | App(code: int)
    | StmtFailed
    | TxClosed
    | TxAborted
    | NotReady
    | BeginFailed(nested: bool)
    | CommitRefused
    | CommitFailed(cause: Error)
    | RollbackFailed
    | FnAndRollback(fnErr: Error, rollbackErr: Error)
    | Recovered

  datatype Outcome = Returned | Failed(error: Error) | Panicked

  /** How the driver answers a statement: a failing one may abort the
      transaction it ran in, as PostgreSQL does. */
  datatype StmtAnswer = Fine | Fails(aborts: bool)

  /** How the driver answers `Commit`: it publishes, or it refuses, in which case
      the Tx may be left open and the enclosing Tx may be left unusable. */
  datatype CommitAnswer = Publish | Refuse(closes: bool, dooms: bool)

  /** The driver's answers to the calls of one `WithTx`. */
  datatype Answers = Answers(ready: bool, begin: bool, commit: CommitAnswer, rollback: bool)

  /** One run of user code. Every answer of the driver and every branch the code
      took is part of the tree, so quantifying over programs covers every run. */
  datatype Prog =
    | Skip
    | Fail(code: int)
    | Panic
    | Exec(stmt: Stmt, ready: bool, answer: StmtAnswer)
    | Then(first: Prog, second: Prog)
    | Catch(attempt: Prog, handler: Prog)
    | Recover(risky: Prog)
    | RollbackByHand(ok: bool)
    | Layered(layer: Layer, inner: Prog)
    | Detached(apart: Prog)
    | WithTx(answers: Answers, body: Prog)
  {
    /** User code cannot name `txKey`. */
    predicate UserCode() {
      match this
      case Then(p, q) => p.UserCode() && q.UserCode()
      case Catch(p, q) => p.UserCode() && q.UserCode()
      case Recover(p) => p.UserCode()
      case Layered(layer, p) => !layer.TxLayer? && p.UserCode()
      case Detached(p) => p.UserCode()
      case WithTx(_, p) => p.UserCode()
      case _ => true
    }

    /** No part of the run drops the context's transaction. */
    predicate StaysInTx() {
      match this
      case Then(p, q) => p.StaysInTx() && q.StaysInTx()
      case Catch(p, q) => p.StaysInTx() && q.StaysInTx()
      case Recover(p) => p.StaysInTx()
      case Layered(_, p) => p.StaysInTx()
      case Detached(_) => false
      case WithTx(_, p) => p.StaysInTx()
      case _ => true
    }
  }

  // ------------------------------------------------------------------
  // Textbook nested transactions
  // ------------------------------------------------------------------

  /** Every answer is good but for statements that just fail, and the code leaves
      transactions to `WithTx`. */
  predicate Healthy(p: Prog)
  {
    match p
    case Exec(_, ready, answer) => ready && answer != Fails(true)
    case Then(p, q) => Healthy(p) && Healthy(q)
    case Catch(p, q) => Healthy(p) && Healthy(q)
    case Recover(p) => Healthy(p)
    case RollbackByHand(_) => false
    case Layered(_, p) => Healthy(p)
    case Detached(_) => false
    case WithTx(a, p) => a.ready && a.begin && a.commit.Publish? && a.rollback && Healthy(p)
    case _ => true
  }

  /** The outcome of a run and the statements that take effect: a block that does
      not return nil has no effect. */
  function Plain(p: Prog): (Outcome, seq<Stmt>)
  {
    match p
    case Skip => (Returned, [])
    case Fail(code) => (Failed(App(code)), [])
    case Panic => (Panicked, [])
    case Exec(stmt, _, answer) => if answer.Fine? then (Returned, [stmt]) else (Failed(StmtFailed), [])
    case Then(p, q) =>
      var (out, log) := Plain(p);
      if out.Returned? then (Plain(q).0, log + Plain(q).1) else (out, log)
    case Catch(p, h) =>
      var (out, log) := Plain(p);
      if out.Failed? then (Plain(h).0, log + Plain(h).1) else (out, log)
    case Recover(p) => if Plain(p).0.Panicked? then (Failed(Recovered), Plain(p).1) else Plain(p)
    case RollbackByHand(_) => (Returned, [])
    case Layered(_, p) => Plain(p)
    case Detached(p) => Plain(p)
    case WithTx(_, body) => if Plain(body).0.Returned? then Plain(body) else (Plain(body).0, [])
  }

  // ------------------------------------------------------------------
  // The reference: nested all-or-nothing blocks
  // ------------------------------------------------------------------

  /** What a block has done so far and whether it can still do anything.
      `stranded` marks a block whose rollback failed: its parent is unusable. */
  datatype Block = Block(log: seq<Stmt>, closed: bool, doomed: bool, stranded: bool)

  datatype Env = NoTx | InTx(block: Block)

  /** The outcome of a run, the block it ran in afterwards, and the statements
      made durable meanwhile. */
  datatype Meaning = Meaning(out: Outcome, env: Env, durable: seq<Stmt>)

  const EMPTY := Block([], false, false, false)

  /** Can a `WithTx` open its block here? */
  function Refusal(env: Env, a: Answers, readyable: bool): Option<Error>
  {
    match env
    case NoTx =>
      if readyable && !a.ready then Some(NotReady)
      else if !a.begin then Some(BeginFailed(false))
      else None
    case InTx(b) => if b.closed || b.doomed || !a.begin then Some(BeginFailed(true)) else None
  }

  /** A block publishes when its function returned nil and its Commit succeeds. */
  predicate Publishes(out: Outcome, b: Block, a: Answers)
  {
    out.Returned? && !b.closed && !b.doomed && a.commit.Publish?
  }

  /** What a block that does not publish reports to its caller. */
  function Report(out: Outcome, b: Block, a: Answers): Outcome
  {
    match out
    case Panicked => Panicked
    case Failed(e) => if !b.closed && !a.rollback then Failed(FnAndRollback(e, RollbackFailed)) else Failed(e)
    case Returned => if b.closed then Failed(CommitFailed(TxClosed)) else Failed(CommitFailed(CommitRefused))
  }

  /** The refusal a Commit that cannot publish turns into. */
  function Refused(b: Block, a: CommitAnswer): (r: CommitAnswer)
  {
    if a.Publish? && b.doomed then Refuse(true, true) else a
  }

  /** Does closing the block without publishing leave its parent unusable? */
  predicate Spoils(out: Outcome, b: Block, a: Answers)
  {
    if b.closed then b.stranded
    else if out.Returned? then
      var c := Refused(b, a.commit);
      c.Refuse? && (c.dooms || (!c.closes && !a.rollback))
    else !a.rollback
  }

  function Denote(p: Prog, env: Env, readyable: bool): (m: Meaning)
    ensures m.env.InTx? <==> env.InTx?
  {
    match p
    case Skip => Meaning(Returned, env, [])
    case Fail(code) => Meaning(Failed(App(code)), env, [])
    case Panic => Meaning(Panicked, env, [])
    case Exec(stmt, ready, answer) => DenoteExec(stmt, ready, answer, env, readyable)
    case Then(p, q) =>
      var m := Denote(p, env, readyable);
      if !m.out.Returned? then m else
        var n := Denote(q, m.env, readyable);
        Meaning(n.out, n.env, m.durable + n.durable)
    case Catch(p, h) =>
      var m := Denote(p, env, readyable);
      if !m.out.Failed? then m else
        var n := Denote(h, m.env, readyable);
        Meaning(n.out, n.env, m.durable + n.durable)
    case Recover(p) =>
      var m := Denote(p, env, readyable);
      if m.out.Panicked? then m.(out := Failed(Recovered)) else m
    case RollbackByHand(ok) => DenoteRollbackByHand(ok, env)
    case Layered(_, p) => Denote(p, env, readyable)
    case Detached(p) =>
      var m := Denote(p, NoTx, readyable);
      Meaning(m.out, env, m.durable)
    case WithTx(a, body) =>
      DenoteBlock(Denote(body, InTx(EMPTY), readyable), env, a, readyable)
  }

  /** A block whose function, run from an empty block, means `m`. */
  function DenoteBlock(m: Meaning, env: Env, a: Answers, readyable: bool): (r: Meaning)
    requires m.env.InTx?
    ensures r.env.InTx? <==> env.InTx?
  {
    var refusal := Refusal(env, a, readyable);
    if refusal.Some? then Meaning(Failed(refusal.value), env, []) else DenoteClose(m, env, a)
  }

  function DenoteExec(stmt: Stmt, ready: bool, answer: StmtAnswer, env: Env, readyable: bool): (m: Meaning)
    ensures m.env.InTx? <==> env.InTx?
  {
    match env
    case NoTx =>
      if readyable && !ready then Meaning(Failed(NotReady), NoTx, [])
      else if answer.Fails? then Meaning(Failed(StmtFailed), NoTx, [])
      else Meaning(Returned, NoTx, [stmt])
    case InTx(b) =>
      if b.closed then Meaning(Failed(TxClosed), env, [])
      else if b.doomed then Meaning(Failed(TxAborted), env, [])
      else if answer.Fails? then Meaning(Failed(StmtFailed), InTx(b.(doomed := answer.aborts)), [])
      else Meaning(Returned, InTx(b.(log := b.log + [stmt])), [])
  }

  function DenoteRollbackByHand(ok: bool, env: Env): (m: Meaning)
    ensures m.env.InTx? <==> env.InTx?
  {
    match env
    case NoTx => Meaning(Returned, env, [])
    case InTx(b) =>
      if b.closed then Meaning(Failed(TxClosed), env, [])
      else Meaning(if ok then Returned else Failed(RollbackFailed), InTx(b.(closed := true, stranded := !ok)), [])
  }

  /** The end of a block: everything it logged goes to the parent, or nothing. */
  function DenoteClose(m: Meaning, env: Env, a: Answers): (r: Meaning)
    requires m.env.InTx?
    ensures r.env.InTx? <==> env.InTx?
  {
    var b := m.env.block;
    if Publishes(m.out, b, a) then
      match env
      case NoTx => Meaning(Returned, NoTx, m.durable + b.log)
      case InTx(outer) => Meaning(Returned, InTx(outer.(log := outer.log + b.log)), m.durable)
    else
      match env
      case NoTx => Meaning(Report(m.out, b, a), NoTx, m.durable)
      case InTx(outer) =>
        Meaning(Report(m.out, b, a), InTx(outer.(doomed := outer.doomed || Spoils(m.out, b, a))), m.durable)
  }

  // ------------------------------------------------------------------
  // The implementation: Tx records over a driver
  // ------------------------------------------------------------------

  datatype Tx = Tx(parent: Option<TxId>, block: Block)

  datatype Event = Opened(tx: TxId) | Closed(tx: TxId, committed: bool)

  /** Everything the driver holds: every Tx ever opened, the committed store and
      the history of Begin and closing calls that took effect. */
  datatype Db = Db(txs: seq<Tx>, store: seq<Stmt>, trace: seq<Event>)

  /** The transactions left open by a history, innermost last; None when the
      history closes anything but the innermost open transaction. */
  function Replay(trace: seq<Event>): (stack: Option<seq<TxId>>)
    ensures stack.Some? ==> |stack.value| <= |trace|
  {
    if trace == [] then Some([]) else
      var before := Replay(trace[..|trace| - 1]);
      if before.None? then None else
        match trace[|trace| - 1]
        case Opened(t) => Some(before.value + [t])
        case Closed(t, _) =>
          if before.value != [] && before.value[|before.value| - 1] == t
          then Some(before.value[..|before.value| - 1]) else None
  }

  lemma ReplayStep(trace: seq<Event>, e: Event)
    requires Replay(trace).Some?
    ensures e.Opened? ==> Replay(trace + [e]) == Some(Replay(trace).value + [e.tx])
    ensures e.Closed? && Replay(trace).value != [] && Last(Replay(trace).value) == e.tx
      ==> Replay(trace + [e]) == Some(Init(Replay(trace).value))
  {
    assert (trace + [e])[..|trace|] == trace;
  }

  function Last(s: seq<TxId>): TxId
    requires s != []
  {
    s[|s| - 1]
  }

  function Init(s: seq<TxId>): seq<TxId>
    requires s != []
  {
    s[..|s| - 1]
  }

  ghost predicate Ascending(s: seq<TxId>)
  {
    forall i, j :: 0 <= i < j < |s| ==> s[i] < s[j]
  }

  /** The history is well bracketed so far and agrees with the Tx records. */
  ghost predicate Consistent(db: Db)
  {
    && Replay(db.trace).Some?
    && Ascending(Replay(db.trace).value)
    && Bounded(Replay(db.trace).value, |db.txs|)
    && Numbered(db.trace, |db.txs|)
    && (forall t :: 0 <= t < |db.txs| ==> Sound(t, db.txs[t]))
  }

  /** How often each transaction was opened, and closed, in a history. */
  ghost function Openings(trace: seq<Event>): multiset<TxId>
  {
    if trace == [] then multiset{} else
      var last := trace[|trace| - 1];
      Openings(trace[..|trace| - 1]) + (if last.Opened? then multiset{last.tx} else multiset{})
  }

  ghost function Closings(trace: seq<Event>): multiset<TxId>
  {
    if trace == [] then multiset{} else
      var last := trace[|trace| - 1];
      Closings(trace[..|trace| - 1]) + (if last.Closed? then multiset{last.tx} else multiset{})
  }

  /** Each of the first `n` ids was opened exactly once, and no other. */
  ghost predicate Numbered(trace: seq<Event>, n: nat)
  {
    forall t: TxId :: Openings(trace)[t] == if t < n then 1 else 0
  }

  lemma NumberedStep(trace: seq<Event>, e: Event, n: nat)
    requires Numbered(trace, n)
    ensures e == Opened(n) ==> Numbered(trace + [e], n + 1)
    ensures e.Closed? ==> Numbered(trace + [e], n)
  {
    assert (trace + [e])[..|trace|] == trace;
    assert Openings(trace + [e]) == Openings(trace) + (if e.Opened? then multiset{e.tx} else multiset{});
  }

  ghost predicate Sound(t: TxId, tx: Tx)
  {
    && (tx.parent.Some? ==> tx.parent.value < t)
    && (tx.block.stranded ==> tx.block.closed)
  }

  ghost predicate Bounded(s: seq<TxId>, n: nat)
  {
    forall i :: 0 <= i < |s| ==> s[i] < n
  }

  /** User code runs with the context of the innermost open block, of a block
      already closed by hand, or of no block. */
  ghost predicate At(ctx: Context, db: Db)
  {
    && Consistent(db)
    && var cur := TxFromContext(ctx);
    cur.Some? ==>
      && cur.value < |db.txs|
      && (!db.txs[cur.value].block.closed ==>
            Replay(db.trace).value != [] && Last(Replay(db.trace).value) == cur.value)
  }

  ghost function EnvOf(ctx: Context, db: Db): Env
    requires At(ctx, db)
  {
    match TxFromContext(ctx)
    case None => NoTx
    case Some(t) => InTx(db.txs[t].block)
  }

  function Parent(cur: Option<TxId>, db: Db): Option<TxId>
  {
    if cur.Some? && cur.value < |db.txs| then db.txs[cur.value].parent else None
  }

  predicate Open(cur: Option<TxId>, db: Db)
  {
    cur.Some? && cur.value < |db.txs| && !db.txs[cur.value].block.closed
  }

  predicate Stranded(cur: Option<TxId>, db: Db)
  {
    cur.Some? && cur.value < |db.txs| && db.txs[cur.value].block.stranded
  }

  /** A parent's record after a run in its child: unusable if the child's rollback failed. */
  function Spoilt(tx: Tx, failed: bool): Tx
  {
    if failed then tx.(block := tx.block.(doomed := true)) else tx
  }

  /** What a run in `cur` leaves alone: other Tx records keep their contents (a
      parent can only become unusable), everything it opened it closed, and the
      open transactions are those it started with, less `cur` if it closed that. */
  ghost predicate Framed(cur: Option<TxId>, db: Db, db': Db)
    requires Replay(db.trace).Some? && Replay(db'.trace).Some?
  {
    && |db.txs| <= |db'.txs|
    && Parent(cur, db') == Parent(cur, db)
    && (forall i :: 0 <= i < |db.txs| && cur != Some(i) && Parent(cur, db) != Some(i) ==> db'.txs[i] == db.txs[i])
    && (forall i :: 0 <= i < |db.txs| && cur != Some(i) && Parent(cur, db) == Some(i) ==>
          db'.txs[i] == Spoilt(db.txs[i], Stranded(cur, db') && !Stranded(cur, db)))
    && (forall i :: |db.txs| <= i < |db'.txs| ==> db'.txs[i].block.closed)
    && (Open(cur, db') ==> Open(cur, db))
    && (Stranded(cur, db) ==> Stranded(cur, db'))
    && StackAfter(Replay(db.trace).value, Replay(db'.trace).value, Open(cur, db) && !Open(cur, db'))
  }

  ghost predicate StackAfter(before: seq<TxId>, after: seq<TxId>, popped: bool)
  {
    if popped then before != [] && after == Init(before) else after == before
  }

  /** A run under `ctx` from `db` to `db'` with outcome `r` did what `m` says. */
  ghost predicate Obeys(m: Meaning, ctx: Context, db: Db, db': Db, r: Outcome)
    requires At(ctx, db)
  {
    && At(ctx, db')
    && r == m.out
    && EnvOf(ctx, db') == m.env
    && db'.store == db.store + m.durable
    && Framed(TxFromContext(ctx), db, db')
  }

  lemma FramedTransitive(cur: Option<TxId>, a: Db, b: Db, c: Db)
    requires Consistent(a) && Consistent(b) && Consistent(c)
    requires cur.Some? ==> cur.value < |a.txs|
    requires Framed(cur, a, b) && Framed(cur, b, c)
    ensures Framed(cur, a, c)
  {
  }

  lemma FramedReflexive(cur: Option<TxId>, db: Db)
    requires Replay(db.trace).Some?
    ensures Framed(cur, db, db)
  {
    hide Replay;
  }

  /** A run that never touched the current transaction. */
  lemma FramedApart(cur: Option<TxId>, db: Db, db': Db)
    requires Replay(db.trace).Some? && Replay(db'.trace).Some?
    requires cur.Some? ==> cur.value < |db.txs|
    requires Framed(None, db, db')
    ensures Framed(cur, db, db')
    ensures Replay(db'.trace) == Replay(db.trace) && |db.txs| <= |db'.txs|
    ensures cur.Some? ==> db'.txs[cur.value] == db.txs[cur.value]
  {
    hide Replay;
  }

  // The driver's contract for a Tx. None of this is repository code: a savepoint
  // driver is anything that behaves like these four functions.

  predicate Usable(b: Block)
  {
    !b.closed && !b.doomed
  }

  function Update(txs: seq<Tx>, t: TxId, b: Block): (r: seq<Tx>)
    requires t < |txs|
  {
    txs[t := txs[t].(block := b)]
  }

  function DoomParent(txs: seq<Tx>, t: TxId): (r: seq<Tx>)
    requires t < |txs|
  {
    var parent := txs[t].parent;
    if parent.Some? && parent.value < |txs|
    then Update(txs, parent.value, txs[parent.value].block.(doomed := true)) else txs
  }

  /** Opens a transaction on the provider, or a savepoint on `parent`. */
  function Begin(db: Db, parent: Option<TxId>): (r: Db)
  {
    Db(db.txs + [Tx(parent, EMPTY)], db.store, db.trace + [Opened(|db.txs|)])
  }

  /** Discards and closes; on a closed Tx it changes nothing. A failing rollback
      closes too, and leaves the enclosing transaction unusable. */
  function Rollback(db: Db, t: TxId, ok: bool): (r: (Db, Option<Error>))
    requires t < |db.txs|
    ensures |r.0.txs| == |db.txs|
  {
    var b := db.txs[t].block;
    if b.closed then (db, Some(TxClosed)) else
      var txs := if ok then db.txs else DoomParent(db.txs, t);
      (Db(Update(txs, t, txs[t].block.(closed := true, stranded := !ok)), db.store, db.trace + [Closed(t, false)]),
       if ok then None else Some(RollbackFailed))
  }

  /** Publishes to the parent or to the store and closes, or publishes nothing. */
  function Commit(db: Db, t: TxId, answer: CommitAnswer): (r: (Db, Option<Error>))
    requires t < |db.txs|
    ensures |r.0.txs| == |db.txs|
  {
    var b := db.txs[t].block;
    if b.closed then (db, Some(TxClosed)) else
      match Refused(b, answer)
      case Publish =>
        var parent := db.txs[t].parent;
        var txs := if parent.Some? && parent.value < |db.txs| then
                     var outer := db.txs[parent.value].block;
                     Update(db.txs, parent.value, outer.(log := outer.log + b.log))
                   else db.txs;
        var store := if parent.None? then db.store + b.log else db.store;
        (Db(Update(txs, t, txs[t].block.(closed := true)), store, db.trace + [Closed(t, true)]), None)
      case Refuse(closes, dooms) =>
        var txs := if dooms then DoomParent(db.txs, t) else db.txs;
        if closes
        then
          var closed := txs[t].block.(closed := true, stranded := dooms);
          (Db(Update(txs, t, closed), db.store, db.trace + [Closed(t, false)]), Some(CommitRefused))
        else (Db(txs, db.store, db.trace), Some(CommitRefused))
  }

  /** Runs one statement on a Tx. */
  function ExecOn(db: Db, t: TxId, stmt: Stmt, answer: StmtAnswer): (r: (Db, Option<Error>))
    requires t < |db.txs|
  {
    var b := db.txs[t].block;
    if b.closed then (db, Some(TxClosed))
    else if b.doomed then (db, Some(TxAborted))
    else if answer.Fails? then (db.(txs := Update(db.txs, t, b.(doomed := answer.aborts))), Some(StmtFailed))
    else (db.(txs := Update(db.txs, t, b.(log := b.log + [stmt]))), None)
  }

  // ------------------------------------------------------------------
  // TxManager
  // ------------------------------------------------------------------

  class TxManager {
    const readyable: bool
    var db: Db

    constructor (readyable: bool)
      ensures this.readyable == readyable && db == Db([], [], [])
    {
      this.readyable := readyable;
      db := Db([], [], []);
    }

    /** Opens a block, runs `body` with the block's context, and closes the block
        on every way out; the last statement is the deferred Rollback. */
    method WithTx(ctx: Context, a: Answers, body: Prog) returns (r: Outcome)
      requires At(ctx, db) && body.UserCode()
      modifies this
      ensures var m := Denote(body, InTx(EMPTY), readyable);
              Obeys(DenoteBlock(m, EnvOf(ctx, old(db)), a, readyable), ctx, old(db), db, r)
      decreases body, 1
    {
      hide Consistent, Replay, Framed, Obeys, Denote, DenoteBlock, Rollback, Commit;
      var existing := TxFromContext(ctx);
      RefusalObeys(ctx, a, Denote(body, InTx(EMPTY), readyable), db, readyable);
      if existing.Some? {
        if !a.begin || !Usable(db.txs[existing.value].block) {
          return Failed(BeginFailed(true));
        }
      } else {
        if readyable && !a.ready {
          return Failed(NotReady);
        }
        if !a.begin {
          return Failed(BeginFailed(false));
        }
      }
      var tx := |db.txs|;
      ghost var start := db;
      db := Begin(db, existing);
      var ctxWithTx := Derived(ctx, TxLayer(tx));
      BeginEntersBlock(ctx, start);

      r := Run(body, ctxWithTx);
      ghost var ran := db;
      ghost var out := r;
      RanInside(ctxWithTx, Denote(body, InTx(EMPTY), readyable), Begin(start, existing), ran, out);

      if r.Failed? {
        var (rolledBack, rollbackErr) := Rollback(db, tx, a.rollback);
        db := rolledBack;
        if rollbackErr.Some? && rollbackErr.value != TxClosed {
          r := Failed(FnAndRollback(r.error, rollbackErr.value));
        }
      } else if r.Returned? {
        var (committed, commitErr) := Commit(db, tx, a.commit);
        db := committed;
        if commitErr.Some? {
          r := Failed(CommitFailed(commitErr.value));
        }
      }
      db := Rollback(db, tx, a.rollback).0;
      CloseObeys(ctx, a, Denote(body, InTx(EMPTY), readyable), start, ran, readyable);
      assert (db, r) == Close(ran, tx, out, a);
    }

    /** One run of user code under `ctx`. */
    method Run(p: Prog, ctx: Context) returns (r: Outcome)
      requires At(ctx, db) && p.UserCode()
      modifies this
      ensures Obeys(Denote(p, EnvOf(ctx, old(db)), readyable), ctx, old(db), db, r)
      decreases p, 0
    {
      hide Replay, Ascending, Bounded, Numbered, Framed, DenoteExec, DenoteBlock, DenoteRollbackByHand;
      FramedReflexive(TxFromContext(ctx), db);
      match p
      case Skip => r := Returned;
      case Fail(code) => r := Failed(App(code));
      case Panic => r := Panicked;
      case Exec(stmt, ready, answer) => r := Exec(stmt, ready, answer, ctx);
      case Then(first, second) =>
        r := Run(first, ctx);
        if r.Returned? {
          ghost var mid := db;
          r := Run(second, ctx);
          FramedTransitive(TxFromContext(ctx), old(db), mid, db);
        }
      case Catch(attempt, handler) =>
        r := Run(attempt, ctx);
        if r.Failed? {
          ghost var mid := db;
          r := Run(handler, ctx);
          FramedTransitive(TxFromContext(ctx), old(db), mid, db);
        }
      case Recover(risky) =>
        r := Run(risky, ctx);
        if r.Panicked? {
          r := Failed(Recovered);
        }
      case RollbackByHand(ok) => r := RollBackByHand(ok, ctx);
      case Layered(layer, inner) =>
        r := Run(inner, Derived(ctx, layer));
      case Detached(apart) =>
        r := Run(apart, Background);
        FramedApart(TxFromContext(ctx), old(db), db);
      case WithTx(a, body) =>
        r := WithTx(ctx, a, body);
    }

    /** A statement on the querier the context resolves to. */
    method Exec(stmt: Stmt, ready: bool, answer: StmtAnswer, ctx: Context) returns (r: Outcome)
      requires At(ctx, db)
      modifies this
      ensures Obeys(DenoteExec(stmt, ready, answer, EnvOf(ctx, old(db)), readyable), ctx, old(db), db, r)
    {
      hide Replay, Ascending, Bounded, Numbered, Obeys, ExecOn, DenoteExec, At;
      ExecObeys(stmt, ready, answer, ctx, db, readyable);
      match QuerierFromContext(ctx, readyable)
      case OnTx(t) =>
        var (after, err) := ExecOn(db, t, stmt, answer);
        db := after;
        r := if err.Some? then Failed(err.value) else Returned;
      case q =>
        if q.Gated? && !ready {
          return Failed(NotReady);
        }
        if answer.Fails? {
          return Failed(StmtFailed);
        }
        db := db.(store := db.store + [stmt]);
        r := Returned;
    }

    /** User code that fetched its Tx with `TxFromContext` and rolled it back. */
    method RollBackByHand(ok: bool, ctx: Context) returns (r: Outcome)
      requires At(ctx, db)
      modifies this
      ensures Obeys(DenoteRollbackByHand(ok, EnvOf(ctx, old(db))), ctx, old(db), db, r)
    {
      var cur := TxFromContext(ctx);
      if cur.None? {
        return Returned;
      }
      RollbackFrames(db, cur.value, ok);
      var (after, err) := Rollback(db, cur.value, ok);
      db := after;
      r := if err.Some? then Failed(err.value) else Returned;
    }
  }

  // ------------------------------------------------------------------
  // Why a statement does what the reference says
  // ------------------------------------------------------------------

  lemma ExecOnObeys(stmt: Stmt, ready: bool, answer: StmtAnswer, ctx: Context, db: Db, readyable: bool)
    requires At(ctx, db) && TxFromContext(ctx).Some?
    ensures var (after, err) := ExecOn(db, TxFromContext(ctx).value, stmt, answer);
            Obeys(DenoteExec(stmt, ready, answer, EnvOf(ctx, db), readyable), ctx, db, after,
                  if err.Some? then Failed(err.value) else Returned)
  {
    hide Replay, Ascending, Bounded, Numbered;
  }

  lemma ExecOutsideObeys(stmt: Stmt, ready: bool, answer: StmtAnswer, ctx: Context, db: Db, readyable: bool)
    requires At(ctx, db) && TxFromContext(ctx).None?
    ensures var m := DenoteExec(stmt, ready, answer, NoTx, readyable);
            EnvOf(ctx, db) == NoTx && Obeys(m, ctx, db, db.(store := db.store + m.durable), m.out)
    ensures var m := DenoteExec(stmt, ready, answer, NoTx, readyable);
            !m.out.Returned? ==> Obeys(m, ctx, db, db, m.out)
  {
    hide Replay, Ascending, Bounded, Numbered;
    assert db.store + [] == db.store;
  }

  /** A statement, on whichever querier its context resolves to. */
  lemma ExecObeys(stmt: Stmt, ready: bool, answer: StmtAnswer, ctx: Context, db: Db, readyable: bool)
    requires At(ctx, db)
    ensures var m := DenoteExec(stmt, ready, answer, EnvOf(ctx, db), readyable);
            match QuerierFromContext(ctx, readyable)
            case OnTx(t) =>
              && t < |db.txs|
              && var (after, err) := ExecOn(db, t, stmt, answer);
              Obeys(m, ctx, db, after, if err.Some? then Failed(err.value) else Returned)
            case q =>
              if q.Gated? && !ready then Obeys(m, ctx, db, db, Failed(NotReady))
              else if answer.Fails? then Obeys(m, ctx, db, db, Failed(StmtFailed))
              else Obeys(m, ctx, db, db.(store := db.store + [stmt]), Returned)
  {
    hide Obeys, ExecOn;
    if TxFromContext(ctx).Some? {
      ExecOnObeys(stmt, ready, answer, ctx, db, readyable);
    } else {
      ExecOutsideObeys(stmt, ready, answer, ctx, db, readyable);
    }
  }

  // ------------------------------------------------------------------
  // Why closing a block does what the reference says
  // ------------------------------------------------------------------

  /** What `WithTx` does after its function came back with `out`. */
  ghost function Close(db: Db, tx: TxId, out: Outcome, a: Answers): (r: (Db, Outcome))
    requires tx < |db.txs|
    ensures |r.0.txs| == |db.txs|
  {
    match out
    case Panicked => (Rollback(db, tx, a.rollback).0, Panicked)
    case Failed(e) =>
      var (after, err) := Rollback(db, tx, a.rollback);
      (Rollback(after, tx, a.rollback).0,
       if err.Some? && err.value != TxClosed then Failed(FnAndRollback(e, err.value)) else out)
    case Returned =>
      var (after, err) := Commit(db, tx, a.commit);
      (Rollback(after, tx, a.rollback).0, if err.Some? then Failed(CommitFailed(err.value)) else Returned)
  }

  lemma RefusalObeys(ctx: Context, a: Answers, m: Meaning, db: Db, readyable: bool)
    requires At(ctx, db) && m.env.InTx?
    ensures var env := EnvOf(ctx, db);
            var refusal := Refusal(env, a, readyable);
            refusal.Some? ==> Obeys(DenoteBlock(m, env, a, readyable), ctx, db, db, Failed(refusal.value))
  {
    hide Replay;
    FramedReflexive(TxFromContext(ctx), db);
  }

  lemma RanInside(ctx: Context, m: Meaning, start: Db, ran: Db, out: Outcome)
    requires At(ctx, start) && |start.txs| > 0
    requires Obeys(m, ctx, start, ran, out)
    ensures |start.txs| <= |ran.txs| && out == m.out
  {
    hide Consistent, Replay;
  }

  lemma BeginEntersBlock(ctx: Context, db: Db)
    requires At(ctx, db)
    requires TxFromContext(ctx).Some? ==> Usable(db.txs[TxFromContext(ctx).value].block)
    ensures var begun := Begin(db, TxFromContext(ctx));
            var inside := Derived(ctx, TxLayer(|db.txs|));
            && At(inside, begun)
            && EnvOf(inside, begun) == InTx(EMPTY)
            && Replay(begun.trace) == Some(Replay(db.trace).value + [|db.txs|])
  {
    hide Replay, Numbered, Openings;
    ReplayStep(db.trace, Opened(|db.txs|));
    NumberedStep(db.trace, Opened(|db.txs|), |db.txs|);
  }

  /** Rolling back the innermost open transaction keeps the history bracketed
      and touches nothing but that transaction and its parent's health. */
  lemma RollbackFrames(db: Db, t: TxId, ok: bool)
    requires Consistent(db) && t < |db.txs|
    requires Open(Some(t), db) ==> Replay(db.trace).value != [] && Last(Replay(db.trace).value) == t
    ensures var after := Rollback(db, t, ok).0;
            Consistent(after) && Framed(Some(t), db, after)
  {
    hide Replay, Ascending, Bounded, Numbered;
    if !db.txs[t].block.closed {
      var after := Rollback(db, t, ok).0;
      ClosingKeepsBrackets(db, t, after.txs, after.store, false);
    }
  }

  /** The parent's record once a block that was `b` when its function ended is closed. */
  ghost function ParentAfter(parent: Tx, out: Outcome, b: Block, a: Answers): (r: Tx)
    ensures r.parent == parent.parent
    ensures r.block.closed == parent.block.closed && r.block.stranded == parent.block.stranded
  {
    if Publishes(out, b, a) then parent.(block := parent.block.(log := parent.block.log + b.log))
    else Spoilt(parent, !b.closed && Spoils(out, b, a))
  }

  /** `after` is `db` with the block `tx` closed, all or nothing. */
  ghost predicate Settled(db: Db, after: Db, tx: TxId, out: Outcome, a: Answers)
    requires Replay(db.trace).Some? && tx < |db.txs|
  {
    var b := db.txs[tx].block;
    && Consistent(after)
    && |after.txs| == |db.txs|
    && after.txs[tx].block.closed
    && after.store == db.store + (if Publishes(out, b, a) && db.txs[tx].parent.None? then b.log else [])
    && (forall i :: 0 <= i < |db.txs| && i != tx ==>
          after.txs[i] == if db.txs[tx].parent == Some(i) then ParentAfter(db.txs[i], out, b, a) else db.txs[i])
    && StackAfter(Replay(db.trace).value, Replay(after.trace).value, !b.closed)
  }

  ghost predicate Innermost(db: Db, tx: TxId)
  {
    && Consistent(db) && tx < |db.txs|
    && (Open(Some(tx), db) ==> Replay(db.trace).value != [] && Last(Replay(db.trace).value) == tx)
  }

  lemma RollbackSettles(db: Db, tx: TxId, out: Outcome, a: Answers)
    requires Innermost(db, tx) && !out.Returned?
    ensures Settled(db, Rollback(db, tx, a.rollback).0, tx, out, a)
  {
    hide Replay, Ascending, Bounded, Numbered;
    RollbackFrames(db, tx, a.rollback);
  }

  /** Recording that the innermost transaction closed keeps the history bracketed. */
  lemma ClosingKeepsBrackets(db: Db, tx: TxId, txs: seq<Tx>, store: seq<Stmt>, committed: bool)
    requires Innermost(db, tx) && Open(Some(tx), db)
    requires |txs| == |db.txs| && forall i :: 0 <= i < |txs| ==> Sound(i, txs[i])
    ensures var after := Db(txs, store, db.trace + [Closed(tx, committed)]);
            Consistent(after) && StackAfter(Replay(db.trace).value, Replay(after.trace).value, true)
  {
    hide Replay, Numbered, Openings, Sound;
    ReplayStep(db.trace, Closed(tx, committed));
    NumberedStep(db.trace, Closed(tx, committed), |db.txs|);
  }

  lemma CommitPublishes(db: Db, tx: TxId, a: Answers)
    requires Innermost(db, tx) && Publishes(Returned, db.txs[tx].block, a)
    ensures Settled(db, Commit(db, tx, a.commit).0, tx, Returned, a)
  {
    hide Replay, Ascending, Bounded, Numbered;
    var after := Commit(db, tx, a.commit).0;
    ClosingKeepsBrackets(db, tx, after.txs, after.store, true);
  }

  lemma CommitRefuses(db: Db, tx: TxId, a: Answers)
    requires Innermost(db, tx) && Open(Some(tx), db)
    requires Refused(db.txs[tx].block, a.commit).Refuse?
    ensures var after := Commit(db, tx, a.commit).0;
            Settled(db, Rollback(after, tx, a.rollback).0, tx, Returned, a)
  {
    hide Replay, Ascending, Bounded, Numbered;
    var after := Commit(db, tx, a.commit).0;
    if Refused(db.txs[tx].block, a.commit).closes {
      ClosingKeepsBrackets(db, tx, after.txs, after.store, false);
    } else {
      var last := Rollback(after, tx, a.rollback).0;
      ClosingKeepsBrackets(after, tx, last.txs, last.store, false);
    }
  }

  lemma CommitSettles(db: Db, tx: TxId, a: Answers)
    requires Innermost(db, tx)
    ensures var after := Commit(db, tx, a.commit).0;
            Settled(db, Rollback(after, tx, a.rollback).0, tx, Returned, a)
  {
    var b := db.txs[tx].block;
    if !b.closed {
      if Refused(b, a.commit).Publish? {
        CommitPublishes(db, tx, a);
      } else {
        CommitRefuses(db, tx, a);
      }
    }
  }

  lemma CloseSettles(db: Db, tx: TxId, out: Outcome, a: Answers)
    requires Innermost(db, tx)
    ensures Settled(db, Close(db, tx, out, a).0, tx, out, a)
    ensures var b := db.txs[tx].block;
            Close(db, tx, out, a).1 == if Publishes(out, b, a) then Returned else Report(out, b, a)
  {
    if out.Returned? {
      CommitSettles(db, tx, a);
    } else {
      RollbackSettles(db, tx, out, a);
    }
  }

  /** Seen from `cur`, the Tx records from opening a block to closing it. */
  lemma BlockFrames(cur: Option<TxId>, start: Db, ran: Db, after: Db, out: Outcome, a: Answers)
    requires Consistent(start) && Consistent(ran)
    requires cur.Some? ==> cur.value < |start.txs| && Usable(start.txs[cur.value].block)
    requires var begun := Begin(start, cur);
             && Replay(begun.trace) == Some(Replay(start.trace).value + [|start.txs|])
             && Framed(Some(|start.txs|), begun, ran)
    requires Settled(ran, after, |start.txs|, out, a)
    ensures Framed(cur, start, after)
    ensures cur.Some? ==>
      after.txs[cur.value] == ParentAfter(Spoilt(start.txs[cur.value], ran.txs[|start.txs|].block.stranded),
                                          out, ran.txs[|start.txs|].block, a)
  {
    hide Replay, Publishes, Spoils, ParentAfter, Ascending, Bounded, Numbered;
    var tx := |start.txs|;
    var begun := Begin(start, cur);
    assert Parent(Some(tx), ran) == cur;
    assert Replay(after.trace).value == Replay(start.trace).value by {
      assert Init(Replay(begun.trace).value) == Replay(start.trace).value;
    }
    forall i | 0 <= i < |start.txs| && cur != Some(i)
      ensures after.txs[i] == start.txs[i]
    {
      assert begun.txs[i] == start.txs[i];
      assert ran.txs[i] == begun.txs[i];
    }
    if cur.Some? {
      assert begun.txs[cur.value] == start.txs[cur.value];
    }
  }

  /** Closing the block `tx` opened on `start`, after the body took it to `ran`. */
  lemma CloseObeys(ctx: Context, a: Answers, m: Meaning, start: Db, ran: Db, readyable: bool)
    requires At(ctx, start) && m.env.InTx? && Refusal(EnvOf(ctx, start), a, readyable).None?
    requires var begun := Begin(start, TxFromContext(ctx));
             var inside := Derived(ctx, TxLayer(|start.txs|));
             At(inside, begun) && Obeys(m, inside, begun, ran, m.out)
    ensures var (after, r) := Close(ran, |start.txs|, m.out, a);
            Obeys(DenoteBlock(m, EnvOf(ctx, start), a, readyable), ctx, start, after, r)
  {
    hide Replay, Ascending, Bounded, Numbered, Close, Report;
    BeginEntersBlock(ctx, start);
    CloseSettles(ran, |start.txs|, m.out, a);
    BlockFrames(TxFromContext(ctx), start, ran, Close(ran, |start.txs|, m.out, a).0, m.out, a);
  }

  // ------------------------------------------------------------------
  // The history of every run is well bracketed
  // ------------------------------------------------------------------

  /** In every history that replays, what was opened is what was closed or is still open. */
  lemma {:induction false} OpenedIsClosedOrOpen(trace: seq<Event>)
    requires Replay(trace).Some?
    ensures Openings(trace) == Closings(trace) + multiset(Replay(trace).value)
  {
    if trace != [] {
      var init := trace[..|trace| - 1];
      OpenedIsClosedOrOpen(init);
      var stack := Replay(init).value;
      if trace[|trace| - 1].Closed? {
        SplitLast(stack);
      }
    }
  }

  lemma SplitLast(s: seq<TxId>)
    requires s != []
    ensures multiset(s) == multiset(Init(s)) + multiset{Last(s)}
  {
    assert s == Init(s) + [Last(s)];
  }

  /** Position `j` closes what position `i` opened, with everything opened in
      between closed by then. */
  ghost predicate Matches(trace: seq<Event>, i: int, j: int)
    requires 0 <= i < |trace|
  {
    && i < j < |trace|
    && trace[i].Opened? && trace[j].Closed? && trace[j].tx == trace[i].tx
    && Replay(trace[..j]) == Replay(trace[..i + 1])
  }

  lemma ReplayPrefix(trace: seq<Event>, m: nat)
    requires m < |trace| && Replay(trace[..m + 1]).Some?
    ensures Replay(trace[..m]).Some?
    ensures var stack := Replay(trace[..m]).value;
            Replay(trace[..m + 1]).value ==
              (if trace[m].Opened? then stack + [trace[m].tx] else if stack == [] then stack else Init(stack))
    ensures trace[m].Closed? ==> Replay(trace[..m]).value != [] && Last(Replay(trace[..m]).value) == trace[m].tx
  {
    assert trace[..m + 1][..m] == trace[..m];
  }

  lemma {:induction false} PrefixesReplay(trace: seq<Event>, m: nat)
    requires m <= |trace| && Replay(trace).Some?
    ensures Replay(trace[..m]).Some?
    decreases |trace| - m
  {
    if m == |trace| {
      assert trace[..m] == trace;
    } else {
      PrefixesReplay(trace, m + 1);
      ReplayPrefix(trace, m);
    }
  }

  /** Children before parents: an opened transaction whose history ends with
      nothing open is closed once everything opened inside it is closed. */
  lemma {:induction false} FindClose(trace: seq<Event>, i: nat, m: nat) returns (j: nat)
    requires i < m < |trace| && trace[i].Opened? && Replay(trace) == Some([])
    requires Replay(trace[..i + 1]).Some? && Replay(trace[..m]).Some?
    requires Replay(trace[..i + 1]).value <= Replay(trace[..m]).value
    requires Replay(trace[..i + 1]).value != [] && Last(Replay(trace[..i + 1]).value) == trace[i].tx
    ensures Matches(trace, i, j)
    decreases |trace| - m
  {
    hide Replay;
    var outer := Replay(trace[..i + 1]).value;
    var stack := Replay(trace[..m]).value;
    PrefixesReplay(trace, m + 1);
    ReplayPrefix(trace, m);
    assert trace[..|trace|] == trace;
    if trace[m].Closed? && |stack| == |outer| {
      assert stack == outer;
      j := m;
    } else {
      j := FindClose(trace, i, m + 1);
    }
  }

  lemma EveryTxIsClosed(trace: seq<Event>, i: nat) returns (j: nat)
    requires Replay(trace) == Some([]) && i < |trace| && trace[i].Opened?
    ensures Matches(trace, i, j)
  {
    hide Replay;
    PrefixesReplay(trace, i + 1);
    ReplayPrefix(trace, i);
    assert trace[..|trace|] == trace;
    j := FindClose(trace, i, i + 1);
  }

  /** Every opening has its closing, and no transaction is closed without having been
      opened, opened twice or closed twice. */
  ghost predicate WellBracketed(trace: seq<Event>)
  {
    && (forall i :: 0 <= i < |trace| && trace[i].Opened? ==> exists j :: Matches(trace, i, j))
    && (forall t: TxId :: Closings(trace)[t] == Openings(trace)[t] <= 1)
  }

  lemma ReplayedIsBracketed(trace: seq<Event>)
    requires Replay(trace) == Some([]) && forall t: TxId :: Openings(trace)[t] <= 1
    ensures WellBracketed(trace)
  {
    OpenedIsClosedOrOpen(trace);
    hide Replay, Openings, Closings, Matches;
    assert Openings(trace) == Closings(trace);
    forall i | 0 <= i < |trace| && trace[i].Opened?
      ensures exists j :: Matches(trace, i, j)
    {
      var j := EveryTxIsClosed(trace, i);
    }
  }

  /** A run from the outside, on an empty database, comes back to the outside. */
  lemma RunFromEmpty(m: Meaning, db: Db, r: Outcome)
    requires At(Background, Db([], [], [])) && Obeys(m, Background, Db([], [], []), db, r)
    ensures r == m.out && db.store == m.durable && Replay(db.trace) == Some([])
    ensures forall t: TxId :: Openings(db.trace)[t] <= 1
  {
    hide Openings, Bounded, Ascending, Sound;
    assert Replay([]) == Some([]);
    assert [] + m.durable == m.durable;
  }

  lemma NothingOpened()
    ensures At(Background, Db([], [], [])) && EnvOf(Background, Db([], [], [])) == NoTx
  {
  }

  /** A whole run from an empty database: the store holds what the nested
      all-or-nothing reading makes durable, every transaction was closed exactly
      once, and children were closed before their parents. */
  method Execute(p: Prog, readyable: bool) returns (store: seq<Stmt>, trace: seq<Event>, r: Outcome)
    requires p.UserCode()
    ensures store == Denote(p, NoTx, readyable).durable
    ensures r == Denote(p, NoTx, readyable).out
    ensures Replay(trace) == Some([]) && WellBracketed(trace)
  {
    var tm := new TxManager(readyable);
    NothingOpened();
    hide Denote, Obeys, Replay, WellBracketed, At, EnvOf;
    r := tm.Run(p, Background);
    RunFromEmpty(Denote(p, NoTx, readyable), tm.db, r);
    store, trace := tm.db.store, tm.db.trace;
    ReplayedIsBracketed(trace);
  }

  // ------------------------------------------------------------------
  // Laws of the nested all-or-nothing reading
  // ------------------------------------------------------------------

  /** A closed block is inert, a doomed one records nothing more and stays
      doomed, and nothing recorded is ever lost inside a block. */
  lemma {:induction false} BlocksOnlyGrow(p: Prog, b: Block, readyable: bool)
    ensures var b' := Denote(p, InTx(b), readyable).env.block;
            && b.log <= b'.log
            && (b.closed ==> b' == b)
            && (b.doomed ==> b'.doomed && b'.log == b.log)
    decreases p
  {
    match p
    case Then(p, q) =>
      BlocksOnlyGrow(p, b, readyable);
      BlocksOnlyGrow(q, Denote(p, InTx(b), readyable).env.block, readyable);
    case Catch(p, h) =>
      BlocksOnlyGrow(p, b, readyable);
      BlocksOnlyGrow(h, Denote(p, InTx(b), readyable).env.block, readyable);
    case Recover(p) => BlocksOnlyGrow(p, b, readyable);
    case Layered(_, p) => BlocksOnlyGrow(p, b, readyable);
    case _ =>
  }

  lemma WithTxIsABlock(a: Answers, body: Prog, env: Env, readyable: bool)
    ensures Denote(WithTx(a, body), env, readyable)
         == DenoteBlock(Denote(body, InTx(EMPTY), readyable), env, a, readyable)
  {
  }

  lemma ThenIsInOrder(p: Prog, q: Prog, env: Env, readyable: bool)
    ensures var m := Denote(p, env, readyable);
            var n := Denote(q, m.env, readyable);
            Denote(Then(p, q), env, readyable) ==
              if m.out.Returned? then Meaning(n.out, n.env, m.durable + n.durable) else m
  {
  }

  lemma CatchIsInOrder(p: Prog, h: Prog, env: Env, readyable: bool)
    ensures var m := Denote(p, env, readyable);
            var n := Denote(h, m.env, readyable);
            Denote(Catch(p, h), env, readyable) ==
              if m.out.Failed? then Meaning(n.out, n.env, m.durable + n.durable) else m
  {
  }

  lemma StatementsAreSteps(env: Env, readyable: bool)
    ensures Denote(Skip, env, readyable) == Meaning(Returned, env, [])
    ensures forall code :: Denote(Fail(code), env, readyable) == Meaning(Failed(App(code)), env, [])
    ensures forall stmt, ready, answer ::
      Denote(Exec(stmt, ready, answer), env, readyable) == DenoteExec(stmt, ready, answer, env, readyable)
  {
  }

  /** At some point of the run the block is unusable: aborted by a statement or by a
      savepoint that could not be closed properly, or closed by hand. */
  predicate EverUnusable(p: Prog, b: Block, readyable: bool)
  {
    || !Usable(Denote(p, InTx(b), readyable).env.block)
    || match p {
       case Then(p, q) =>
         var m := Denote(p, InTx(b), readyable);
         EverUnusable(p, b, readyable) || (m.out.Returned? && EverUnusable(q, m.env.block, readyable))
       case Catch(p, h) =>
         var m := Denote(p, InTx(b), readyable);
         EverUnusable(p, b, readyable) || (m.out.Failed? && EverUnusable(h, m.env.block, readyable))
       case Recover(p) => EverUnusable(p, b, readyable)
       case Layered(_, p) => EverUnusable(p, b, readyable)
       case _ => false
    }
  }

  lemma {:induction false} UnusableStaysUnusable(p: Prog, b: Block, readyable: bool)
    requires EverUnusable(p, b, readyable)
    ensures !Usable(Denote(p, InTx(b), readyable).env.block)
    decreases p
  {
    hide DenoteExec, DenoteRollbackByHand, DenoteBlock;
    if Usable(Denote(p, InTx(b), readyable).env.block) {
      match p
      case Then(p, q) =>
        var m := Denote(p, InTx(b), readyable);
        if EverUnusable(p, b, readyable) {
          UnusableStaysUnusable(p, b, readyable);
          BlocksOnlyGrow(q, m.env.block, readyable);
        } else {
          UnusableStaysUnusable(q, m.env.block, readyable);
        }
      case Catch(p, h) =>
        var m := Denote(p, InTx(b), readyable);
        if EverUnusable(p, b, readyable) {
          UnusableStaysUnusable(p, b, readyable);
          BlocksOnlyGrow(h, m.env.block, readyable);
        } else {
          UnusableStaysUnusable(h, m.env.block, readyable);
        }
      case Recover(p) => UnusableStaysUnusable(p, b, readyable);
      case Layered(_, p) => UnusableStaysUnusable(p, b, readyable);
    }
  }

  /** Once a transaction is aborted, left unusable by a failed rollback or rolled back
      by hand, at whatever point of whatever function, its whole block publishes
      nothing and its `WithTx` does not return nil, whatever the function swallows,
      recovers from or does next. */
  lemma UnusableNeverPublishes(body: Prog, a: Answers, env: Env, readyable: bool)
    requires EverUnusable(body, EMPTY, readyable)
    ensures var m := Denote(WithTx(a, body), env, readyable);
            && !m.out.Returned?
            && (env.InTx? ==> m.env.block.log == env.block.log)
            && (env.NoTx? && body.StaysInTx() ==> m.durable == [])
  {
    UnusableStaysUnusable(body, EMPTY, readyable);
    hide Denote, EverUnusable;
    WithTxIsABlock(a, body, env, readyable);
    if body.StaysInTx() {
      NothingLeaks(body, EMPTY, readyable);
    }
  }

  /** Work that stays in its transaction makes nothing durable on its own. */
  lemma {:induction false} NothingLeaks(p: Prog, b: Block, readyable: bool)
    requires p.StaysInTx()
    ensures Denote(p, InTx(b), readyable).durable == []
    decreases p
  {
    match p
    case Then(p, q) =>
      NothingLeaks(p, b, readyable);
      NothingLeaks(q, Denote(p, InTx(b), readyable).env.block, readyable);
    case Catch(p, h) =>
      NothingLeaks(p, b, readyable);
      NothingLeaks(h, Denote(p, InTx(b), readyable).env.block, readyable);
    case Recover(p) => NothingLeaks(p, b, readyable);
    case Layered(_, p) => NothingLeaks(p, b, readyable);
    case WithTx(_, body) => NothingLeaks(body, EMPTY, readyable);
    case _ =>
  }

  /** Atomicity of an outermost `WithTx`: it made its whole log durable exactly
      when it returned nil, and that is when its function returned nil on a
      healthy open transaction whose Commit succeeded; otherwise nothing at all. */
  lemma OutermostIsAtomic(a: Answers, body: Prog, readyable: bool)
    requires body.StaysInTx()
    ensures var m := Denote(WithTx(a, body), NoTx, readyable);
            var inner := Denote(body, InTx(EMPTY), readyable);
            && m.durable == (if m.out.Returned? then inner.env.block.log else [])
            && (m.out.Returned? <==>
                  Refusal(NoTx, a, readyable).None? && Publishes(inner.out, inner.env.block, a))
  {
    hide Denote;
    WithTxIsABlock(a, body, NoTx, readyable);
    NothingLeaks(body, EMPTY, readyable);
  }

  ghost function Prepend(pre: seq<Stmt>, env: Env): Env
  {
    match env
    case NoTx => NoTx
    case InTx(b) => InTx(b.(log := pre + b.log))
  }

  /** What a block did earlier does not change what the code does next. */
  lemma {:induction false} EarlierWorkIsIrrelevant(p: Prog, pre: seq<Stmt>, b: Block, readyable: bool)
    ensures var m := Denote(p, InTx(b), readyable);
            Denote(p, Prepend(pre, InTx(b)), readyable) == Meaning(m.out, Prepend(pre, m.env), m.durable)
    decreases p
  {
    match p
    case Then(p, q) =>
      EarlierWorkIsIrrelevant(p, pre, b, readyable);
      EarlierWorkIsIrrelevant(q, pre, Denote(p, InTx(b), readyable).env.block, readyable);
    case Catch(p, h) =>
      EarlierWorkIsIrrelevant(p, pre, b, readyable);
      EarlierWorkIsIrrelevant(h, pre, Denote(p, InTx(b), readyable).env.block, readyable);
    case Recover(p) => EarlierWorkIsIrrelevant(p, pre, b, readyable);
    case Layered(_, p) => EarlierWorkIsIrrelevant(p, pre, b, readyable);
    case Exec(stmt, _, _) => assert pre + (b.log + [stmt]) == (pre + b.log) + [stmt];
    case WithTx(a, body) =>
      var inner := Denote(body, InTx(EMPTY), readyable).env.block;
      assert pre + (b.log + inner.log) == (pre + b.log) + inner.log;
    case _ =>
  }

  /** A savepoint that commits is invisible: the enclosing transaction ends up as
      if the nested function had run directly in it. */
  lemma CommittedSavepointIsTransparent(a: Answers, body: Prog, b: Block, readyable: bool)
    requires Usable(b) && !b.stranded && a.begin
    requires var inner := Denote(body, InTx(EMPTY), readyable);
             Publishes(inner.out, inner.env.block, a)
    ensures Denote(WithTx(a, body), InTx(b), readyable) == Denote(body, InTx(b), readyable)
  {
    hide Denote, Report, Spoils;
    WithTxIsABlock(a, body, InTx(b), readyable);
    EarlierWorkIsIrrelevant(body, b.log, EMPTY, readyable);
    assert Prepend(b.log, InTx(EMPTY)) == InTx(b) by {
      assert b.log + [] == b.log;
    }
    StrandedIsClosed(body, EMPTY, readyable);
  }

  lemma {:induction false} StrandedIsClosed(p: Prog, b: Block, readyable: bool)
    requires b.stranded ==> b.closed
    ensures var b' := Denote(p, InTx(b), readyable).env.block;
            b'.stranded ==> b'.closed
    decreases p
  {
    match p
    case Then(p, q) =>
      StrandedIsClosed(p, b, readyable);
      StrandedIsClosed(q, Denote(p, InTx(b), readyable).env.block, readyable);
    case Catch(p, h) =>
      StrandedIsClosed(p, b, readyable);
      StrandedIsClosed(h, Denote(p, InTx(b), readyable).env.block, readyable);
    case Recover(p) => StrandedIsClosed(p, b, readyable);
    case Layered(_, p) => StrandedIsClosed(p, b, readyable);
    case _ =>
  }

  /** A savepoint is all or nothing: the enclosing transaction gains exactly what
      the nested function recorded when the nested `WithTx` returns nil, which is
      when the function returned nil and its Commit succeeded, and otherwise keeps
      exactly what it had. It stays open either way, and fully usable unless a
      Commit or Rollback of the savepoint went wrong. */
  lemma SavepointIsAllOrNothing(a: Answers, body: Prog, b: Block, readyable: bool)
    requires Usable(b)
    ensures var m := Denote(WithTx(a, body), InTx(b), readyable);
            var inner := Denote(body, InTx(EMPTY), readyable);
            && (m.out.Returned? <==> a.begin && Publishes(inner.out, inner.env.block, a))
            && m.env.block.log == b.log + (if m.out.Returned? then inner.env.block.log else [])
            && m.env.block == b.(log := m.env.block.log, doomed := m.env.block.doomed)
            && (m.env.block.doomed ==> a.begin && (inner.env.block.stranded || !a.rollback || inner.out.Returned?))
  {
    hide Denote;
    WithTxIsABlock(a, body, InTx(b), readyable);
    assert b.log + [] == b.log;
  }

  predicate PlainIn(p: Prog, b: Block, readyable: bool)
  {
    Denote(p, InTx(b), readyable) == Meaning(Plain(p).0, InTx(b.(log := b.log + Plain(p).1)), [])
  }

  lemma PlainInOrder(p: Prog, q: Prog)
    ensures Plain(Then(p, q)) == if Plain(p).0.Returned? then (Plain(q).0, Plain(p).1 + Plain(q).1) else Plain(p)
    ensures Plain(Catch(p, q)) == if Plain(p).0.Failed? then (Plain(q).0, Plain(p).1 + Plain(q).1) else Plain(p)
  {
  }

  lemma LogsAssociate(a: seq<Stmt>, b: seq<Stmt>, c: seq<Stmt>)
    ensures (a + b) + c == a + (b + c)
  {
  }

  lemma PlainThen(p: Prog, q: Prog, b: Block, readyable: bool)
    requires PlainIn(p, b, readyable) && PlainIn(q, b.(log := b.log + Plain(p).1), readyable)
    ensures PlainIn(Then(p, q), b, readyable)
  {
    hide Denote, Plain;
    ThenIsInOrder(p, q, InTx(b), readyable);
    PlainInOrder(p, q);
    LogsAssociate(b.log, Plain(p).1, Plain(q).1);
  }

  lemma PlainCatch(p: Prog, h: Prog, b: Block, readyable: bool)
    requires PlainIn(p, b, readyable) && PlainIn(h, b.(log := b.log + Plain(p).1), readyable)
    ensures PlainIn(Catch(p, h), b, readyable)
  {
    hide Denote, Plain;
    CatchIsInOrder(p, h, InTx(b), readyable);
    PlainInOrder(p, h);
    LogsAssociate(b.log, Plain(p).1, Plain(h).1);
  }

  lemma PlainAround(p: Prog, layer: Layer, b: Block, readyable: bool)
    requires PlainIn(p, b, readyable)
    ensures PlainIn(Recover(p), b, readyable) && PlainIn(Layered(layer, p), b, readyable)
  {
    hide DenoteExec, DenoteRollbackByHand, DenoteBlock;
  }

  lemma PlainBlock(a: Answers, body: Prog, b: Block, readyable: bool)
    requires PlainIn(body, EMPTY, readyable) && Usable(b) && a.begin && a.commit.Publish? && a.rollback
    ensures PlainIn(WithTx(a, body), b, readyable)
  {
    WithTxIsABlock(a, body, InTx(b), readyable);
    HealthyClose(Plain(body).0, Plain(body).1, a);
    hide Denote, Spoils, Report;
    assert [] + Plain(body).1 == Plain(body).1;
    assert b.log + [] == b.log;
  }

  lemma PlainLeaf(p: Prog, b: Block, readyable: bool)
    requires (p.Skip? || p.Fail? || p.Panic? || p.Exec?) && Healthy(p) && Usable(b)
    ensures PlainIn(p, b, readyable)
  {
    assert b.log + [] == b.log;
  }

  /** On a healthy driver the reference is textbook nested transactions: in a block
      the effects are recorded. */
  lemma {:induction false} HealthyIsPlain(p: Prog, b: Block, readyable: bool)
    requires Healthy(p) && Usable(b)
    ensures PlainIn(p, b, readyable)
    decreases p
  {
    hide PlainIn, Plain, Denote;
    match p
    case Then(p, q) =>
      HealthyIsPlain(p, b, readyable);
      HealthyIsPlain(q, b.(log := b.log + Plain(p).1), readyable);
      PlainThen(p, q, b, readyable);
    case Catch(p, h) =>
      HealthyIsPlain(p, b, readyable);
      HealthyIsPlain(h, b.(log := b.log + Plain(p).1), readyable);
      PlainCatch(p, h, b, readyable);
    case Recover(p) =>
      HealthyIsPlain(p, b, readyable);
      PlainAround(p, Deadline(0), b, readyable);
    case Layered(layer, p) =>
      HealthyIsPlain(p, b, readyable);
      PlainAround(p, layer, b, readyable);
    case WithTx(a, body) =>
      HealthyIsPlain(body, EMPTY, readyable);
      PlainBlock(a, body, b, readyable);
    case _ => PlainLeaf(p, b, readyable);
  }

  /** Outside any block the same effects are durable. */
  lemma {:induction false} HealthyIsPlainOutside(p: Prog, readyable: bool)
    requires Healthy(p)
    ensures Denote(p, NoTx, readyable) == Meaning(Plain(p).0, NoTx, Plain(p).1)
    decreases p
  {
    hide Spoils, Report;
    match p
    case Then(p, q) =>
      HealthyIsPlainOutside(p, readyable);
      HealthyIsPlainOutside(q, readyable);
    case Catch(p, h) =>
      HealthyIsPlainOutside(p, readyable);
      HealthyIsPlainOutside(h, readyable);
    case Recover(p) => HealthyIsPlainOutside(p, readyable);
    case Layered(_, p) => HealthyIsPlainOutside(p, readyable);
    case WithTx(a, body) =>
      HealthyIsPlain(body, EMPTY, readyable);
      assert [] + Plain(body).1 == Plain(body).1;
      HealthyClose(Plain(body).0, Plain(body).1, a);
    case _ =>
  }

  lemma HealthyClose(out: Outcome, log: seq<Stmt>, a: Answers)
    requires a.commit.Publish? && a.rollback
    ensures var b := Block(log, false, false, false);
            && (Publishes(out, b, a) <==> out.Returned?)
            && (!out.Returned? ==> Report(out, b, a) == out && !Spoils(out, b, a))
  {
  }

  // ------------------------------------------------------------------
  // What callers are told
  // ------------------------------------------------------------------

  /** The driver and the gate let a block be opened here. */
  predicate Opens(a: Answers, env: Env, readyable: bool)
  {
    && a.begin
    && (env.NoTx? ==> (readyable ==> a.ready))
    && (env.InTx? ==> !env.block.closed && !env.block.doomed)
  }

  /** A `WithTx` whose block cannot be opened says why and does nothing. */
  lemma RefusedDoesNothing(a: Answers, body: Prog, env: Env, readyable: bool)
    requires !Opens(a, env, readyable)
    ensures Denote(WithTx(a, body), env, readyable) ==
            Meaning(Failed(if env.NoTx? && readyable && !a.ready then NotReady else BeginFailed(env.InTx?)), env, [])
  {
    hide Denote;
    WithTxIsABlock(a, body, env, readyable);
  }

  /** What a `WithTx` that opened its block answers, for every function, every place and
      every answer of the driver. A panic goes on. An error comes back joined with the
      rollback's exactly when the block was still open and its Rollback failed, and
      otherwise as it is. Nil comes back exactly when the block was usable and its Commit
      succeeded; otherwise the error says that Commit found it closed or refused. */
  lemma WithTxAnswers(a: Answers, body: Prog, env: Env, readyable: bool)
    requires Opens(a, env, readyable)
    ensures var m := Denote(WithTx(a, body), env, readyable);
            var inner := Denote(body, InTx(EMPTY), readyable);
            var b := inner.env.block;
            match inner.out
            case Panicked => m.out == Panicked
            case Failed(e) =>
              && (m.out == Failed(FnAndRollback(e, RollbackFailed)) <==> !b.closed && !a.rollback)
              && (b.closed || a.rollback ==> m.out == Failed(e))
            case Returned =>
              && (m.out.Returned? <==> !b.closed && !b.doomed && a.commit.Publish?)
              && (b.closed ==> m.out == Failed(CommitFailed(TxClosed)))
              && (!b.closed && (b.doomed || a.commit.Refuse?) ==> m.out == Failed(CommitFailed(CommitRefused)))
  {
    hide Denote;
    WithTxIsABlock(a, body, env, readyable);
  }

  /** `WithTx` around `WithTx`, as many as there are answers, around `p`. */
  function Tower(answers: seq<Answers>, p: Prog): Prog
  {
    if answers == [] then p else WithTx(answers[0], Tower(answers[1..], p))
  }

  /** `e` joined `n` times with the error of a rollback. */
  function Joined(e: Error, n: nat): Error
  {
    if n == 0 then e else FnAndRollback(Joined(e, n - 1), RollbackFailed)
  }

  /** How many of the levels fail to roll back; the innermost has nothing to roll back
      when its block is closed already. */
  function FailedRollbacks(answers: seq<Answers>, closed: bool): nat
  {
    if answers == [] then 0 else
      FailedRollbacks(answers[1..], closed)
      + (if !answers[0].rollback && !(closed && |answers| == 1) then 1 else 0)
  }

  lemma OuterStaysOpen(a: Answers, body: Prog, readyable: bool)
    ensures !Denote(WithTx(a, body), InTx(EMPTY), readyable).env.block.closed
  {
    hide Denote;
    WithTxIsABlock(a, body, InTx(EMPTY), readyable);
  }

  /** Through any number of nested blocks that could be opened, the error of the
      innermost function comes out joined once for every level whose Rollback failed, and
      is never replaced or lost. A panic stays a panic. */
  lemma {:induction false} ErrorsSurvive(answers: seq<Answers>, p: Prog, env: Env, readyable: bool)
    requires answers != [] && Opens(answers[0], env, readyable)
    requires forall k :: 0 <= k < |answers| ==> answers[k].begin
    ensures var m := Denote(Tower(answers, p), env, readyable);
            var inner := Denote(p, InTx(EMPTY), readyable);
            && (inner.out.Panicked? ==> m.out.Panicked?)
            && (inner.out.Failed? ==>
                  m.out == Failed(Joined(inner.out.error, FailedRollbacks(answers, inner.env.block.closed))))
    decreases |answers|
  {
    hide Denote;
    var rest := answers[1..];
    WithTxAnswers(answers[0], Tower(rest, p), env, readyable);
    if rest != [] {
      ErrorsSurvive(rest, p, InTx(EMPTY), readyable);
      OuterStaysOpen(rest[0], Tower(rest[1..], p), readyable);
    }
  }

  // ------------------------------------------------------------------
  // The readiness gate
  // ------------------------------------------------------------------

  /** A statement outside any transaction takes effect exactly when the provider has no
      readiness or is ready, and the driver runs it; while the provider is not ready it is
      refused as such. */
  lemma GateDecides(stmt: Stmt, ready: bool, answer: StmtAnswer, readyable: bool)
    ensures var m := Denote(Exec(stmt, ready, answer), NoTx, readyable);
            && (m.out.Returned? <==> (readyable ==> ready) && answer.Fine?)
            && m.durable == (if m.out.Returned? then [stmt] else [])
            && (m.out == Failed(NotReady) <==> readyable && !ready)
  {
  }

  /** The provider is not ready at any operation of the run. */
  predicate Unready(p: Prog)
  {
    match p
    case Exec(_, ready, _) => !ready
    case WithTx(a, body) => !a.ready && Unready(body)
    case Then(p, q) => Unready(p) && Unready(q)
    case Catch(p, h) => Unready(p) && Unready(h)
    case Recover(p) => Unready(p)
    case Layered(_, p) => Unready(p)
    case Detached(p) => Unready(p)
    case _ => true
  }

  /** Until its provider is ready a program makes nothing durable, whatever it does. */
  lemma {:induction false} NothingBeforeReady(p: Prog)
    requires Unready(p)
    ensures Denote(p, NoTx, true).durable == [] && Denote(p, NoTx, true).env == NoTx
    decreases p
  {
    match p
    case Then(p, q) => NothingBeforeReady(p); NothingBeforeReady(q);
    case Catch(p, h) => NothingBeforeReady(p); NothingBeforeReady(h);
    case Recover(p) => NothingBeforeReady(p);
    case Layered(_, p) => NothingBeforeReady(p);
    case Detached(p) => NothingBeforeReady(p);
    case _ =>
  }

  /** Inside a transaction there is no gate. */
  lemma {:induction false} NoGateInside(p: Prog, b: Block)
    requires p.StaysInTx()
    ensures Denote(p, InTx(b), true) == Denote(p, InTx(b), false)
    decreases p
  {
    hide DenoteClose;
    match p
    case Then(p, q) => NoGateInside(p, b); NoGateInside(q, Denote(p, InTx(b), true).env.block);
    case Catch(p, h) => NoGateInside(p, b); NoGateInside(h, Denote(p, InTx(b), true).env.block);
    case Recover(p) => NoGateInside(p, b);
    case Layered(_, p) => NoGateInside(p, b);
    case WithTx(_, body) => NoGateInside(body, EMPTY);
    case _ =>
  }
}
