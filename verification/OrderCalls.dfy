/** Whole calls of the orders service: the service as an object that serves one call
    at a time, and the transaction each order is. */
module OrderCalls {
  import opened Common
  import opened Orders
  import Tx = NestedTx

  datatype OrderError = NotFound | InsufficientStock | DatabaseError

  /** Which of the operations a call makes go through. */
  datatype Backend = Backend(
    select: bool, update: bool, insert: bool, commit: bool, cacheGet: bool, cacheSet: bool, cacheDel: bool)

  // ------------------------------------------------------------------
  // A call on its own, in the machine
  // ------------------------------------------------------------------

  /** What the backend decides for the operation a call is at. */
  function ChoiceAt(pc: Pc, h: Backend): Choice
  {
    var goes := match pc
      case Placing(_, _) => h.select
      case RowLocked(_, _, _) => h.update
      case Decremented(_, _, _, _) => h.insert
      case Inserted(_, _, _, _, _) => h.commit
      case Committed(_) => h.cacheDel
      case Looking(_) => h.cacheGet
      case Missed(_) => h.select
      case _ => h.cacheSet;
    if goes then Proceed else Fails
  }

  /** The actions of call `i` when it runs from where it is to its end, alone. */
  function Moves(s: State, i: nat, h: Backend): seq<Action>
    requires i < |s.pcs|
    decreases Rank(s.pcs[i])
  {
    var a := Move(i, ChoiceAt(s.pcs[i], h));
    if Next(s, a).None? then [] else
      MoveRanks(s, i, a.choice);
      [a] + Moves(Next(s, a).value, i, h)
  }

  /** Where that leads. */
  function Play(s: State, i: nat, h: Backend): (t: State)
    requires i < |s.pcs|
    decreases Rank(s.pcs[i])
  {
    var a := Move(i, ChoiceAt(s.pcs[i], h));
    if Next(s, a).None? then s else
      MoveRanks(s, i, a.choice);
      Play(Next(s, a).value, i, h)
  }

  lemma {:induction false} PlayIsARun(s: State, i: nat, h: Backend)
    requires i < |s.pcs|
    ensures Exec(s, Moves(s, i, h)) == Some(Play(s, i, h))
    decreases Rank(s.pcs[i])
  {
    var a := Move(i, ChoiceAt(s.pcs[i], h));
    if Next(s, a).Some? {
      MoveRanks(s, i, a.choice);
      hide Next, ChoiceAt;
      var t := Next(s, a).value;
      PlayIsARun(t, i, h);
      assert ([a] + Moves(t, i, h))[1..] == Moves(t, i, h);
    }
  }

  lemma {:induction false} PlayIsSerial(s: State, i: nat, h: Backend)
    requires i < |s.pcs| && h.cacheDel && forall j :: 0 <= j < |s.pcs| && j != i ==> !Active(s.pcs[j])
    ensures SerialRun(s, Moves(s, i, h))
    decreases Rank(s.pcs[i])
  {
    var a := Move(i, ChoiceAt(s.pcs[i], h));
    if Next(s, a).Some? {
      MoveRanks(s, i, a.choice);
      assert Alone(s, a);
      hide Next, ChoiceAt, Alone, Active;
      var t := Next(s, a).value;
      PlayIsSerial(t, i, h);
      assert ([a] + Moves(t, i, h))[1..] == Moves(t, i, h);
    }
  }

  /** What an order that runs alone comes to. */
  lemma PlayedOrder(s: State, i: nat, h: Backend)
    requires i < |s.pcs| && s.pcs[i].Placing? && s.pcs[i].product !in s.locks
    ensures var p, q := s.pcs[i].product, s.pcs[i].quantity;
            var placed := h.select && p in s.rows && q <= s.rows[p].stock && h.update && h.insert && h.commit;
            var t := Play(s, i, h);
            && t.locks == s.locks && t.initial == s.initial && t.pcs == s.pcs[i := Ordered(p, placed)]
            && t.rows == (if placed then s.rows[p := Decrement(s.rows[p], q)] else s.rows)
            && t.orders == (if placed then s.orders + [NewOrder(p, s.rows[p], q)] else s.orders)
            && t.cache == (if placed && h.cacheDel then s.cache - {p} else s.cache)
  {
    hide NewOrder, Conclude, ReadStep;
    var p, q := s.pcs[i].product, s.pcs[i].quantity;
    var s1 := Next(s, Move(i, ChoiceAt(s.pcs[i], h))).value;
    assert Play(s, i, h) == Play(s1, i, h);
    if h.select && p in s.rows {
      assert s1.pcs[i] == RowLocked(p, q, s.rows[p]) && s1.locks - {p} == s.locks;
      PlayedLocked(s1, i, h);
    } else {
      PlayedOver(s1, i, h);
    }
    hide Play, Decrement;
  }

  lemma PlayedLocked(s: State, i: nat, h: Backend)
    requires i < |s.pcs| && s.pcs[i].RowLocked? && s.pcs[i].product in s.rows
    requires s.pcs[i].seen == s.rows[s.pcs[i].product]
    ensures var p, q := s.pcs[i].product, s.pcs[i].quantity;
            var placed := q <= s.rows[p].stock && h.update && h.insert && h.commit;
            var t := Play(s, i, h);
            && t.locks == s.locks - {p} && t.initial == s.initial && t.pcs == s.pcs[i := Ordered(p, placed)]
            && t.rows == (if placed then s.rows[p := Decrement(s.rows[p], q)] else s.rows)
            && t.orders == (if placed then s.orders + [NewOrder(p, s.rows[p], q)] else s.orders)
            && t.cache == (if placed && h.cacheDel then s.cache - {p} else s.cache)
  {
    hide NewOrder, Decrement, Conclude, ReadStep;
    var p, q := s.pcs[i].product, s.pcs[i].quantity;
    var s1 := Next(s, Move(i, ChoiceAt(s.pcs[i], h))).value;
    assert Play(s, i, h) == Play(s1, i, h);
    if q <= s.rows[p].stock && h.update {
      PlayedDecremented(s1, i, h);
      hide Play, Next;
    }
  }

  lemma PlayedDecremented(s: State, i: nat, h: Backend)
    requires i < |s.pcs| && s.pcs[i].Decremented?
    ensures var p := s.pcs[i].product;
            var placed := h.insert && h.commit;
            var t := Play(s, i, h);
            && t.locks == s.locks - {p} && t.initial == s.initial && t.pcs == s.pcs[i := Ordered(p, placed)]
            && t.rows == (if placed then s.rows[p := s.pcs[i].work] else s.rows)
            && t.orders == (if placed then s.orders + [NewOrder(p, s.pcs[i].seen, s.pcs[i].quantity)] else s.orders)
            && t.cache == (if placed && h.cacheDel then s.cache - {p} else s.cache)
  {
    hide NewOrder, Decrement, Conclude, ReadStep;
    var s1 := Next(s, Move(i, ChoiceAt(s.pcs[i], h))).value;
    assert Play(s, i, h) == Play(s1, i, h);
    if h.insert {
      PlayedInserted(s1, i, h);
      hide Play, Next;
    }
  }

  lemma PlayedInserted(s: State, i: nat, h: Backend)
    requires i < |s.pcs| && s.pcs[i].Inserted?
    ensures var p := s.pcs[i].product;
            var t := Play(s, i, h);
            && t.locks == s.locks - {p} && t.initial == s.initial && t.pcs == s.pcs[i := Ordered(p, h.commit)]
            && t.rows == (if h.commit then s.rows[p := s.pcs[i].work] else s.rows)
            && t.orders == (if h.commit then s.orders + [s.pcs[i].order] else s.orders)
            && t.cache == (if h.commit && h.cacheDel then s.cache - {p} else s.cache)
  {
    hide Prepare, ReadStep, History;
    var s1 := Next(s, Move(i, ChoiceAt(s.pcs[i], h))).value;
    assert Play(s, i, h) == Play(s1, i, h);
    if h.commit {
      var s2 := Next(s1, Move(i, ChoiceAt(s1.pcs[i], h))).value;
      assert Play(s1, i, h) == Play(s2, i, h);
      PlayedOver(s2, i, h);
    } else {
      PlayedOver(s1, i, h);
    }
  }

  lemma PlayedOver(s: State, i: nat, h: Backend)
    requires i < |s.pcs| && (s.pcs[i].Ordered? || s.pcs[i].Answered?)
    ensures Play(s, i, h) == s
  {
  }

  /** What a read that runs alone comes to. */
  lemma PlayedRead(s: State, i: nat, h: Backend)
    requires i < |s.pcs| && s.pcs[i].Looking?
    ensures var p := s.pcs[i].product;
            var hit := h.cacheGet && p in s.cache;
            var answer := if hit then Some(s.cache[p]) else if h.select && p in s.rows then Some(s.rows[p]) else None;
            var t := Play(s, i, h);
            && t.(cache := s.cache, pcs := s.pcs) == s && t.pcs == s.pcs[i := Answered(p, answer)]
            && t.cache == (if !hit && answer.Some? && h.cacheSet then s.cache[p := s.rows[p]] else s.cache)
  {
    hide Prepare, Conclude;
    var p := s.pcs[i].product;
    var s1 := Next(s, Move(i, ChoiceAt(s.pcs[i], h))).value;
    assert Play(s, i, h) == Play(s1, i, h);
    if h.cacheGet && p in s.cache {
      PlayedOver(s1, i, h);
    } else {
      PlayedMiss(s1, i, h);
    }
    hide Play;
  }

  lemma PlayedMiss(s: State, i: nat, h: Backend)
    requires i < |s.pcs| && s.pcs[i].Missed?
    ensures var p := s.pcs[i].product;
            var answer := if h.select && p in s.rows then Some(s.rows[p]) else None;
            var t := Play(s, i, h);
            && t.(cache := s.cache, pcs := s.pcs) == s && t.pcs == s.pcs[i := Answered(p, answer)]
            && t.cache == (if answer.Some? && h.cacheSet then s.cache[p := s.rows[p]] else s.cache)
  {
    hide Prepare, Conclude;
    var p := s.pcs[i].product;
    var s1 := Next(s, Move(i, ChoiceAt(s.pcs[i], h))).value;
    assert Play(s, i, h) == Play(s1, i, h);
    if h.select && p in s.rows {
      PlayedFetched(s1, i, h);
    } else {
      PlayedOver(s1, i, h);
    }
    hide Play;
  }

  lemma PlayedFetched(s: State, i: nat, h: Backend)
    requires i < |s.pcs| && s.pcs[i].Fetched?
    ensures var p, row := s.pcs[i].product, s.pcs[i].row;
            Play(s, i, h) == s.(pcs := s.pcs[i := Answered(p, Some(row))], cache := if h.cacheSet then s.cache[p := row] else s.cache)
  {
    hide Prepare, Conclude;
    var s1 := Next(s, Move(i, ChoiceAt(s.pcs[i], h))).value;
    assert Play(s, i, h) == Play(s1, i, h);
    PlayedOver(s1, i, h);
    hide Play;
  }

  // ------------------------------------------------------------------
  // The service
  // ------------------------------------------------------------------

  class OrderService {
    var rows: map<Id, Row>
    var orders: seq<Order>
    var cache: map<Id, Row>

    constructor (s: State)
      ensures Models(s)
    {
      rows, orders, cache := s.rows, s.orders, s.cache;
    }

    ghost predicate Models(s: State)
      reads this
    {
      rows == s.rows && orders == s.orders && cache == s.cache
    }

    /** `CreateOrder` as one call: what the machine does when call `i` runs alone. */
    method CreateOrder(product: Id, quantity: int, h: Backend, ghost s: State, ghost i: nat)
      returns (order: Option<Order>, err: Option<OrderError>)
      requires Models(s) && i < |s.pcs| && s.pcs[i] == Placing(product, quantity) && product !in s.locks
      modifies this
      ensures Models(Play(s, i, h)) && Play(s, i, h).pcs == s.pcs[i := Ordered(product, order.Some?)]
      ensures order.Some? ==>
        && orders == old(orders) + [order.value]
        && order.value.product == product && order.value.quantity == quantity
      ensures order.Some? <==> err.None?
      ensures err == Some(NotFound) <==> h.select && product !in old(rows)
      ensures err == Some(InsufficientStock) <==>
        h.select && product in old(rows) && old(rows)[product].stock < quantity
      ensures err == Some(DatabaseError) <==>
        || !h.select
        || (product in old(rows) && quantity <= old(rows)[product].stock && !(h.update && h.insert && h.commit))
    {
      PlayedOrder(s, i, h);
      hide Play;
      order, err := None, Some(DatabaseError);
      if !h.select {
        return;
      }
      if product !in rows {
        err := Some(NotFound);
        return;
      }
      var seen := rows[product];
      if seen.stock < quantity {
        err := Some(InsufficientStock);
        return;
      }
      if !h.update {
        return;
      }
      var work := Decrement(rows[product], quantity);
      if !h.insert {
        return;
      }
      var inserted := NewOrder(product, seen, quantity);
      if !h.commit {
        return;
      }
      rows, orders := rows[product := work], orders + [inserted];
      if h.cacheDel {
        cache := cache - {product};
      }
      order, err := Some(inserted), None;
    }

    /** `GetProduct` as one call. */
    method GetProduct(product: Id, h: Backend, ghost s: State, ghost i: nat) returns (answer: Option<Row>)
      requires Models(s) && i < |s.pcs| && s.pcs[i] == Looking(product)
      modifies this`cache
      ensures Models(Play(s, i, h)) && Play(s, i, h).pcs == s.pcs[i := Answered(product, answer)]
    {
      PlayedRead(s, i, h);
      hide Play;
      if h.cacheGet && product in cache {
        return Some(cache[product]);
      }
      if !h.select || product !in rows {
        return None;
      }
      answer := Some(rows[product]);
      if h.cacheSet {
        cache := cache[product := rows[product]];
      }
    }
  }

  /** The calls before `n` are over and the others have not begun. */
  predicate Between(s: State, n: nat)
  {
    && n <= |s.pcs| && s.locks == map[]
    && (forall j :: 0 <= j < n ==> s.pcs[j].Ordered? || s.pcs[j].Answered?)
    && (forall j :: n <= j < |s.pcs| ==> s.pcs[j].Placing? || s.pcs[j].Looking?)
  }

  /** So it is from the beginning, whatever products are created. */
  lemma {:induction false} AfterCreations(s: State, creations: seq<Action>)
    requires Between(s, 0) && Inv(s) && Fresh(s) && Exec(s, creations).Some?
    requires forall k :: 0 <= k < |creations| ==> creations[k].CreateProduct?
    ensures var t := Exec(s, creations).value; Between(t, 0) && Inv(t) && Fresh(t)
    decreases creations
  {
    if creations != [] {
      StepKeepsInv(s, creations[0]);
      StepStaysFresh(s, creations[0]);
      hide Inv, Fresh;
      AfterCreations(Next(s, creations[0]).value, creations[1..]);
    }
  }

  /** A whole call keeps the invariant, and freshness when its delete goes through. */
  lemma PlayKeeps(s: State, n: nat, h: Backend)
    requires Between(s, n) && n < |s.pcs| && Inv(s)
    ensures Inv(Play(s, n, h)) && (h.cacheDel && Fresh(s) ==> Fresh(Play(s, n, h)))
  {
    PlayIsARun(s, n, h);
    hide Inv, Fresh, Play, Moves;
    RunKeepsInv(s, Moves(s, n, h));
    if h.cacheDel && Fresh(s) {
      PlayIsSerial(s, n, h);
      SerialIsUnspoilt(s, Moves(s, n, h));
      RunStaysFresh(s, Moves(s, n, h));
    }
  }

  lemma PlayLeavesBetween(s: State, n: nat, h: Backend)
    requires Between(s, n) && n < |s.pcs|
    ensures Between(Play(s, n, h), n + 1) && Play(s, n, h).initial == s.initial
  {
    if s.pcs[n].Placing? {
      PlayedOrder(s, n, h);
    } else {
      PlayedRead(s, n, h);
    }
    hide Play;
  }

  /** The service, from the creation of any products on, serving any sequence of
      orders and reads one after the other with whatever its backend does: stock is
      never negative, and what a product was created with is what is left plus what
      was sold; and when the deletes go through, every cached copy is the committed
      row. */
  method Serve(begin: State, creations: seq<Action>, hs: seq<Backend>) returns (service: OrderService)
    requires Initial(begin) && Exec(begin, creations).Some? && |hs| == |Exec(begin, creations).value.pcs|
    requires forall k :: 0 <= k < |creations| ==> creations[k].CreateProduct?
    ensures var s := Exec(begin, creations).value;
            forall p :: p in service.rows ==>
              && service.rows[p].stock >= 0
              && p in s.initial && s.initial[p] == service.rows[p].stock + Sold(service.orders, p)
    ensures (forall i :: 0 <= i < |hs| ==> hs[i].cacheDel) ==>
              forall p :: p in service.cache ==> p in service.rows && service.cache[p] == service.rows[p]
  {
    var s := Exec(begin, creations).value;
    InitialInv(begin);
    AfterCreations(begin, creations);
    hide Exec;
    service := new OrderService(s);
    ghost var t := s;
    for n := 0 to |hs|
      invariant |t.pcs| == |hs| && Between(t, n) && t.pcs[n..] == s.pcs[n..]
      invariant service.Models(t) && t.initial == s.initial && Inv(t)
      invariant (forall i :: 0 <= i < |hs| ==> hs[i].cacheDel) ==> Fresh(t)
    {
      hide Inv, Fresh, Play;
      assert t.pcs[n] == t.pcs[n..][0] == s.pcs[n..][0] == s.pcs[n];
      PlayKeeps(t, n, hs[n]);
      PlayLeavesBetween(t, n, hs[n]);
      if s.pcs[n].Placing? {
        var order, err := service.CreateOrder(s.pcs[n].product, s.pcs[n].quantity, hs[n], t, n);
      } else {
        var answer := service.GetProduct(s.pcs[n].product, hs[n], t, n);
      }
      assert t.pcs[n + 1..] == t.pcs[n..][1..];
      t := Play(t, n, hs[n]);
    }
    forall p: Id
      ensures p in service.rows ==>
        && service.rows[p].stock >= 0
        && p in s.initial && s.initial[p] == service.rows[p].stock + Sold(service.orders, p)
      ensures p in service.cache ==> p in service.rows
    {
      assert ProductOk(t, p);
    }
  }

  // ------------------------------------------------------------------
  // The transaction under an order
  // ------------------------------------------------------------------

  const LOCK_ROW: Tx.Stmt := 1
  const DECREMENT: Tx.Stmt := 2
  const INSERT: Tx.Stmt := 3
  const INSUFFICIENT := 4
  const NOT_FOUND := 5

  /** What the function given to `WithTx` makes of the row it has locked. */
  function Check(row: Option<Row>, quantity: int): Tx.Prog
  {
    if row.None? then Tx.Fail(NOT_FOUND) else if row.value.stock < quantity then Tx.Fail(INSUFFICIENT) else Tx.Skip
  }

  /** `CreateOrder` as `WithTx` sees it, with the driver's answers. */
  function PlaceOrder(
    a: Tx.Answers, lock: Tx.StmtAnswer, row: Option<Row>, quantity: int, update: Tx.StmtAnswer, insert: Tx.StmtAnswer): Tx.Prog
  {
    Tx.WithTx(a,
      Tx.Then(Tx.Exec(LOCK_ROW, true, lock),
        Tx.Then(Check(row, quantity),
          Tx.Then(Tx.Exec(DECREMENT, true, update), Tx.Exec(INSERT, true, insert)))))
  }

  predicate Enough(row: Option<Row>, quantity: int)
  {
    row.Some? && quantity <= row.value.stock
  }

  /** The block after some statements of an order, all of which went well. */
  function Logged(log: seq<Tx.Stmt>): Tx.Env
  {
    Tx.InTx(Tx.Block(log, false, false, false))
  }

  /** Both writes, in a block in which the row is locked. */
  lemma WritesBody(update: Tx.StmtAnswer, insert: Tx.StmtAnswer, readyable: bool)
    ensures var m := Tx.Denote(Tx.Then(Tx.Exec(DECREMENT, true, update), Tx.Exec(INSERT, true, insert)), Logged([LOCK_ROW]), readyable);
            && m.env.InTx? && !m.env.block.closed
            && (m.out.Returned? <==> update.Fine? && insert.Fine?)
            && (m.out.Returned? ==> m.env == Logged([LOCK_ROW, DECREMENT, INSERT]))
  {
    hide Tx.Denote;
    var first, second := Tx.Exec(DECREMENT, true, update), Tx.Exec(INSERT, true, insert);
    Tx.ThenIsInOrder(first, second, Logged([LOCK_ROW]), readyable);
    Tx.StatementsAreSteps(Logged([LOCK_ROW]), readyable);
    Tx.StatementsAreSteps(Tx.Denote(first, Logged([LOCK_ROW]), readyable).env, readyable);
    assert [LOCK_ROW] + [DECREMENT] + [INSERT] == [LOCK_ROW, DECREMENT, INSERT];
  }

  /** What the function given to `WithTx` does in its fresh block. */
  lemma OrderBody(
    a: Tx.Answers, lock: Tx.StmtAnswer, row: Option<Row>, quantity: int,
    update: Tx.StmtAnswer, insert: Tx.StmtAnswer, readyable: bool)
    ensures var body := PlaceOrder(a, lock, row, quantity, update, insert).body;
            var m := Tx.Denote(body, Tx.InTx(Tx.EMPTY), readyable);
            && body.StaysInTx() && !m.env.block.closed
            && (m.out.Returned? <==> lock.Fine? && Enough(row, quantity) && update.Fine? && insert.Fine?)
            && (m.out.Returned? ==> m.env == Logged([LOCK_ROW, DECREMENT, INSERT]))
            && (lock.Fine? && row.Some? && row.value.stock < quantity ==> m.out == Tx.Failed(Tx.App(INSUFFICIENT)))
            && (lock.Fine? && row.None? ==> m.out == Tx.Failed(Tx.App(NOT_FOUND)))
  {
    hide Tx.Denote;
    var body := PlaceOrder(a, lock, row, quantity, update, insert).body;
    var rest := body.second;
    Tx.StatementsAreSteps(Tx.InTx(Tx.EMPTY), readyable);
    Tx.ThenIsInOrder(body.first, rest, Tx.InTx(Tx.EMPTY), readyable);
    assert [] + [LOCK_ROW] == [LOCK_ROW];
    if lock.Fine? {
      Tx.StatementsAreSteps(Logged([LOCK_ROW]), readyable);
      Tx.ThenIsInOrder(rest.first, rest.second, Logged([LOCK_ROW]), readyable);
      WritesBody(update, insert, readyable);
    }
  }

  /** Whatever the driver answers, the decrement and the order become durable
      together or not at all, and together exactly when `WithTx` returns nil; too
      little stock and a missing product are reported as such unless the rollback
      failed too. */
  lemma OrderIsOneTransaction(
    a: Tx.Answers, lock: Tx.StmtAnswer, row: Option<Row>, quantity: int,
    update: Tx.StmtAnswer, insert: Tx.StmtAnswer, readyable: bool)
    ensures var m := Tx.Denote(PlaceOrder(a, lock, row, quantity, update, insert), Tx.NoTx, readyable);
            && m.durable == (if m.out.Returned? then [LOCK_ROW, DECREMENT, INSERT] else [])
            && (m.out.Returned? <==>
                  && (readyable ==> a.ready) && a.begin && a.commit.Publish?
                  && lock.Fine? && Enough(row, quantity) && update.Fine? && insert.Fine?)
            && (Tx.Refusal(Tx.NoTx, a, readyable).None? && lock.Fine? && !Enough(row, quantity) && a.rollback ==>
                  m.out == Tx.Failed(Tx.App(if row.None? then NOT_FOUND else INSUFFICIENT)))
  {
    hide Tx.Denote;
    var body := PlaceOrder(a, lock, row, quantity, update, insert).body;
    OrderBody(a, lock, row, quantity, update, insert, readyable);
    Tx.WithTxIsABlock(a, body, Tx.NoTx, readyable);
    Tx.OutermostIsAtomic(a, body, readyable);
  }

  /** What durable statements of an order do to the rows and the orders. */
  function Applied(log: seq<Tx.Stmt>, p: Id, q: int, rows: map<Id, Row>, orders: seq<Order>): (map<Id, Row>, seq<Order>)
  {
    if log == [] then (rows, orders) else
      var (r, o) := Applied(log[..|log| - 1], p, q, rows, orders);
      var last := log[|log| - 1];
      if last == DECREMENT && p in r then (r[p := Decrement(r[p], q)], o)
      else if last == INSERT && p in rows then (r, o + [NewOrder(p, rows[p], q)])
      else (r, o)
  }

  lemma AppliedOrder(p: Id, q: int, rows: map<Id, Row>, orders: seq<Order>)
    requires p in rows
    ensures Applied([LOCK_ROW, DECREMENT, INSERT], p, q, rows, orders)
            == (rows[p := Decrement(rows[p], q)], orders + [NewOrder(p, rows[p], q)])
  {
    hide NewOrder;
    var log := [LOCK_ROW, DECREMENT, INSERT];
    assert log[..2] == [LOCK_ROW, DECREMENT] && log[..2][..1] == [LOCK_ROW] && log[..2][..1][..0] == [];
    assert Applied(log[..2][..1], p, q, rows, orders) == (rows, orders);
    assert Applied(log[..2], p, q, rows, orders) == (rows[p := Decrement(rows[p], q)], orders);
  }

  function RowOf(s: State, p: Id): Option<Row>
  {
    if p in s.rows then Some(s.rows[p]) else None
  }

  /** What the driver's answers come to for the machine: the gate, `Begin` and the
      row lock are its first operation. */
  function BackendOf(
    a: Tx.Answers, lock: Tx.StmtAnswer, update: Tx.StmtAnswer, insert: Tx.StmtAnswer, readyable: bool, delete: bool): Backend
  {
    Backend((readyable ==> a.ready) && a.begin && lock.Fine?, update.Fine?, insert.Fine?, a.commit.Publish?, true, true, delete)
  }

  /** The one-step commit of the machine is the transaction: run through `WithTx`,
      for every row, quantity and answer of the driver, an order makes durable
      exactly the change of row and orders that the machine makes, and returns nil
      exactly when the machine places it. */
  lemma CommitIsTheTransaction(
    s: State, i: nat, a: Tx.Answers, lock: Tx.StmtAnswer, update: Tx.StmtAnswer, insert: Tx.StmtAnswer,
    readyable: bool, delete: bool)
    requires i < |s.pcs| && s.pcs[i].Placing? && s.pcs[i].product !in s.locks
    ensures var p, q := s.pcs[i].product, s.pcs[i].quantity;
            var m := Tx.Denote(PlaceOrder(a, lock, RowOf(s, p), q, update, insert), Tx.NoTx, readyable);
            var t := Play(s, i, BackendOf(a, lock, update, insert, readyable, delete));
            && (t.rows, t.orders) == Applied(m.durable, p, q, s.rows, s.orders)
            && |t.pcs| == |s.pcs| && t.pcs[i] == Ordered(p, m.out.Returned?)
  {
    var p, q := s.pcs[i].product, s.pcs[i].quantity;
    OrderIsOneTransaction(a, lock, RowOf(s, p), q, update, insert, readyable);
    PlayedOrder(s, i, BackendOf(a, lock, update, insert, readyable, delete));
    assert Applied([], p, q, s.rows, s.orders) == (s.rows, s.orders);
    if p in s.rows {
      AppliedOrder(p, q, s.rows, s.orders);
    }
    hide Play, Tx.Denote, PlaceOrder, Applied, NewOrder;
  }
}
