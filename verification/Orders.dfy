/** The orders example: `CreateOrder` under a row lock, the cache-aside
    `GetProduct`, and delete-after-commit. */
module Orders {
  import opened Common
  import opened Int64

  type Id = nat

  /** The columns of a product that matter here; the others never change. */
  datatype Row = Row(price: int, stock: int)

  datatype Order = Order(product: Id, quantity: int, total: int)

  function Decrement(row: Row, quantity: int): Row
  {
    row.(stock := row.stock - quantity)
  }

  function NewOrder(product: Id, seen: Row, quantity: int): Order
  {
    Order(product, quantity, Wrap64(seen.price * quantity))
  }

  // ------------------------------------------------------------------
  // Concurrent calls
  // ------------------------------------------------------------------

  /** Where a call is: `CreateOrder` up to `Ordered`, then `GetProduct`. `seen` is
      the row read FOR UPDATE, `work` the uncommitted row of the transaction. */
  datatype Pc =
    | Placing(product: Id, quantity: int)
    | RowLocked(product: Id, quantity: int, seen: Row)
    | Decremented(product: Id, quantity: int, seen: Row, work: Row)
    | Inserted(product: Id, quantity: int, seen: Row, work: Row, order: Order)
    | Committed(product: Id)
    | Ordered(product: Id, placed: bool)
    | Looking(product: Id)
    | Missed(product: Id)
    | Fetched(product: Id, row: Row)
    | Answered(product: Id, answer: Option<Row>)

  /** Committed rows and orders, row locks and their holders, the stock each
      product was created with, every version of a row ever committed, the cache. */
  datatype State = State(
    rows: map<Id, Row>, orders: seq<Order>, locks: map<Id, nat>, initial: map<Id, int>,
    history: map<Id, seq<Row>>, cache: map<Id, Row>, pcs: seq<Pc>)

  /** The call goes on, or the operation it is at fails. */
  datatype Choice = Proceed | Fails

  datatype Action = Move(i: nat, choice: Choice) | CreateProduct(product: Id, row: Row) | Expire(product: Id)

  predicate Initial(s: State)
  {
    && s.rows == map[] && s.orders == [] && s.locks == map[] && s.initial == map[] && s.history == map[]
    && s.cache == map[]
    && forall i :: 0 <= i < |s.pcs| ==> s.pcs[i].Looking? || (s.pcs[i].Placing? && s.pcs[i].quantity > 0)
  }

  function At(s: State, i: nat, pc: Pc): State
    requires i < |s.pcs|
  {
    s.(pcs := s.pcs[i := pc])
  }

  /** The transaction rolls back: its row lock goes and nothing else changes. */
  function Abort(s: State, i: nat, product: Id): State
    requires i < |s.pcs|
  {
    At(s.(locks := s.locks - {product}), i, Ordered(product, false))
  }

  function History(s: State, product: Id): seq<Row>
  {
    if product in s.history then s.history[product] else []
  }

  /** `CreateOrder` inside its transaction: lock and read, check and decrement,
      insert. Returns where the call gets to and the row locks. */
  function PrepareTo(s: State, i: nat, c: Choice): (r: Option<(Pc, map<Id, nat>)>)
    requires i < |s.pcs|
    ensures r.Some? ==> !s.pcs[i].Committed? && !s.pcs[i].Inserted? && !s.pcs[i].Fetched? && !r.value.0.Fetched?
  {
    match s.pcs[i]
    case Placing(p, q) =>
      if c.Fails? || p !in s.rows then Some((Ordered(p, false), s.locks))
      else if p in s.locks then None
      else Some((RowLocked(p, q, s.rows[p]), s.locks[p := i]))
    case RowLocked(p, q, seen) =>
      if seen.stock < q || c.Fails? || p !in s.rows then Some((Ordered(p, false), s.locks - {p}))
      else Some((Decremented(p, q, seen, Decrement(s.rows[p], q)), s.locks))
    case Decremented(p, q, seen, work) =>
      if c.Fails? then Some((Ordered(p, false), s.locks - {p}))
      else Some((Inserted(p, q, seen, work, NewOrder(p, seen, q)), s.locks))
    case _ => None
  }

  /** Nothing committed changes before the commit. */
  function Prepare(s: State, i: nat, c: Choice): Option<State>
    requires i < |s.pcs|
  {
    var to := PrepareTo(s, i, c);
    if to.None? then None else Some(At(s.(locks := to.value.1), i, to.value.0))
  }

  /** `CreateOrder` from its commit on: publish, then delete the cached copy. */
  function Conclude(s: State, i: nat, c: Choice): Option<State>
    requires i < |s.pcs|
  {
    match s.pcs[i]
    case Inserted(p, _, _, work, order) =>
      if c.Fails? then Some(Abort(s, i, p))
      else Some(At(s.(rows := s.rows[p := work], orders := s.orders + [order], locks := s.locks - {p},
                      history := s.history[p := History(s, p) + [work]]), i, Committed(p)))
    case Committed(p) => Some(At(if c.Fails? then s else s.(cache := s.cache - {p}), i, Ordered(p, true)))
    case _ => None
  }

  function OrderStep(s: State, i: nat, c: Choice): Option<State>
    requires i < |s.pcs|
  {
    if s.pcs[i].Inserted? || s.pcs[i].Committed? then Conclude(s, i, c) else Prepare(s, i, c)
  }

  /** `GetProduct`: cache, then database, then populate. Returns where the call
      gets to and what it writes to the cache. */
  function ReadTo(s: State, i: nat, c: Choice): (r: Option<(Pc, Option<Row>)>)
    requires i < |s.pcs|
    ensures r.Some? && r.value.1.Some? ==> s.pcs[i] == Fetched(s.pcs[i].product, r.value.1.value)
    ensures r.Some? && r.value.0.Fetched? ==> Holds(s, r.value.0.product, r.value.0.row)
    ensures r.Some? ==> !s.pcs[i].Committed?
  {
    match s.pcs[i]
    case Looking(p) =>
      if c.Fails? || p !in s.cache then Some((Missed(p), None)) else Some((Answered(p, Some(s.cache[p])), None))
    case Missed(p) =>
      if c.Fails? || p !in s.rows then Some((Answered(p, None), None)) else Some((Fetched(p, s.rows[p]), None))
    case Fetched(p, row) => Some((Answered(p, Some(row)), if c.Fails? then None else Some(row)))
    case _ => None
  }

  function ReadStep(s: State, i: nat, c: Choice): Option<State>
    requires i < |s.pcs|
  {
    var to := ReadTo(s, i, c);
    if to.None? then None else
      var cache := if to.value.1.Some? then s.cache[s.pcs[i].product := to.value.1.value] else s.cache;
      Some(At(s.(cache := cache), i, to.value.0))
  }

  predicate Holds(s: State, p: Id, row: Row)
  {
    p in s.rows && s.rows[p] == row
  }

  function Next(s: State, a: Action): Option<State>
  {
    match a
    case Move(i, c) =>
      if i >= |s.pcs| then None
      else if s.pcs[i].Looking? || s.pcs[i].Missed? || s.pcs[i].Fetched? then ReadStep(s, i, c)
      else OrderStep(s, i, c)
    case CreateProduct(p, row) =>
      if p in s.rows || row.stock < 0 then None
      else Some(s.(rows := s.rows[p := row], initial := s.initial[p := row.stock], history := s.history[p := [row]]))
    case Expire(p) => Some(s.(cache := s.cache - {p}))
  }

  function Exec(s: State, actions: seq<Action>): Option<State>
    decreases actions
  {
    if actions == [] then Some(s) else
      var t := Next(s, actions[0]);
      if t.None? then None else Exec(t.value, actions[1..])
  }

  // ------------------------------------------------------------------
  // Invariant
  // ------------------------------------------------------------------

  /** Units of a product in committed orders. */
  function Sold(orders: seq<Order>, product: Id): int
  {
    if orders == [] then 0 else
      var last := orders[|orders| - 1];
      Sold(orders[..|orders| - 1], product) + (if last.product == product then last.quantity else 0)
  }

  /** Every order of the product is for some units, at its price. */
  predicate Priced(orders: seq<Order>, product: Id, price: int)
  {
    forall k :: 0 <= k < |orders| && orders[k].product == product ==>
      orders[k].quantity > 0 && orders[k].total == Wrap64(price * orders[k].quantity)
  }

  predicate NeverOrdered(orders: seq<Order>, product: Id)
  {
    forall k :: 0 <= k < |orders| ==> orders[k].product != product
  }

  predicate InTransaction(pc: Pc)
  {
    pc.RowLocked? || pc.Decremented? || pc.Inserted?
  }

  /** What a call relies on. */
  predicate CallOk(s: State, i: nat)
    requires i < |s.pcs|
  {
    var pc := s.pcs[i];
    && (pc.Placing? ==> pc.quantity > 0)
    && (InTransaction(pc) ==>
          && pc.product in s.rows && pc.product in s.locks && s.locks[pc.product] == i
          && pc.quantity > 0 && pc.seen == s.rows[pc.product])
    && (pc.Decremented? || pc.Inserted? ==>
          pc.work == Decrement(s.rows[pc.product], pc.quantity) && pc.work.stock >= 0)
    && (pc.Inserted? ==> pc.order == NewOrder(pc.product, pc.seen, pc.quantity))
    && (pc.Fetched? ==> pc.row in History(s, pc.product))
    && (pc.Answered? && pc.answer.Some? ==> pc.answer.value in History(s, pc.product))
  }

  /** What holds of one product. */
  predicate ProductOk(s: State, p: Id)
  {
    && (p in s.rows <==> p in s.initial) && (p in s.rows <==> p in s.history)
    && (p in s.rows ==>
          && s.rows[p].stock >= 0
          && s.initial[p] == s.rows[p].stock + Sold(s.orders, p)
          && s.history[p] != [] && s.history[p][|s.history[p]| - 1] == s.rows[p]
          && Priced(s.orders, p, s.rows[p].price))
    && (p !in s.rows ==> Sold(s.orders, p) == 0 && NeverOrdered(s.orders, p))
    && (p in s.cache ==> s.cache[p] in History(s, p))
  }

  ghost predicate Inv(s: State)
  {
    && (forall i :: 0 <= i < |s.pcs| ==> CallOk(s, i))
    && (forall p: Id :: ProductOk(s, p))
  }

  lemma SoldExtends(orders: seq<Order>, order: Order, p: Id)
    ensures Sold(orders + [order], p) == Sold(orders, p) + (if order.product == p then order.quantity else 0)
    ensures order.product != p && NeverOrdered(orders, p) ==> NeverOrdered(orders + [order], p)
    ensures forall price :: Priced(orders, p, price)
              && (order.product == p ==> order.quantity > 0 && order.total == Wrap64(price * order.quantity))
              ==> Priced(orders + [order], p, price)
  {
    assert (orders + [order])[..|orders|] == orders;
  }

  lemma NeverOrderedIsPriced(orders: seq<Order>, p: Id, price: int)
    requires NeverOrdered(orders, p)
    ensures Priced(orders, p, price)
  {
  }

  lemma PrepareKeepsProduct(s: State, i: nat, c: Choice, p: Id)
    requires i < |s.pcs| && Prepare(s, i, c).Some? && ProductOk(s, p)
    ensures ProductOk(Prepare(s, i, c).value, p)
  {
    hide Sold, PrepareTo, Priced, NeverOrdered;
  }

  lemma ConcludeKeepsProduct(s: State, i: nat, c: Choice, p: Id)
    requires i < |s.pcs| && Conclude(s, i, c).Some? && CallOk(s, i) && ProductOk(s, p)
    ensures ProductOk(Conclude(s, i, c).value, p)
  {
    hide Sold, Wrap64, Priced, NeverOrdered;
    if s.pcs[i].Inserted? {
      SoldExtends(s.orders, s.pcs[i].order, p);
    }
  }

  lemma PrepareKeepsCalls(s: State, i: nat, c: Choice, j: nat)
    requires i < |s.pcs| && j < |s.pcs| && Prepare(s, i, c).Some? && CallOk(s, i) && CallOk(s, j)
    ensures CallOk(Prepare(s, i, c).value, j)
  {
    hide Wrap64;
  }

  lemma ConcludeKeepsCalls(s: State, i: nat, c: Choice, j: nat)
    requires i < |s.pcs| && j < |s.pcs| && Conclude(s, i, c).Some? && CallOk(s, i) && CallOk(s, j)
    ensures CallOk(Conclude(s, i, c).value, j)
  {
    hide Wrap64;
  }

  lemma ReadKeepsProduct(s: State, i: nat, c: Choice, p: Id)
    requires i < |s.pcs| && ReadStep(s, i, c).Some? && CallOk(s, i) && ProductOk(s, p)
    ensures ProductOk(ReadStep(s, i, c).value, p)
  {
    hide Sold, ReadTo, Priced, NeverOrdered;
  }

  lemma ReadKeepsCalls(s: State, i: nat, c: Choice, j: nat)
    requires i < |s.pcs| && j < |s.pcs| && ReadStep(s, i, c).Some? && CallOk(s, i) && CallOk(s, j)
    requires ProductOk(s, s.pcs[i].product)
    ensures CallOk(ReadStep(s, i, c).value, j)
  {
    hide Sold, Wrap64;
  }

  lemma ReadKeeps(s: State, i: nat, c: Choice)
    requires i < |s.pcs| && ReadStep(s, i, c).Some? && Inv(s)
    ensures Inv(ReadStep(s, i, c).value)
  {
    var t := ReadStep(s, i, c).value;
    assert CallOk(s, i) && ProductOk(s, s.pcs[i].product);
    assert |t.pcs| == |s.pcs|;
    hide ReadStep, CallOk, ProductOk;
    forall j | 0 <= j < |t.pcs|
      ensures CallOk(t, j)
    {
      assert CallOk(s, j);
      ReadKeepsCalls(s, i, c, j);
    }
    forall p: Id
      ensures ProductOk(t, p)
    {
      assert ProductOk(s, p);
      ReadKeepsProduct(s, i, c, p);
    }
  }

  lemma OrderKeeps(s: State, i: nat, c: Choice)
    requires i < |s.pcs| && OrderStep(s, i, c).Some? && Inv(s)
    ensures Inv(OrderStep(s, i, c).value)
  {
    var t := OrderStep(s, i, c).value;
    assert CallOk(s, i) && ProductOk(s, s.pcs[i].product);
    assert |t.pcs| == |s.pcs|;
    hide Prepare, Conclude, CallOk, ProductOk;
    forall j | 0 <= j < |t.pcs|
      ensures CallOk(t, j)
    {
      assert CallOk(s, j);
      if s.pcs[i].Inserted? || s.pcs[i].Committed? {
        ConcludeKeepsCalls(s, i, c, j);
      } else {
        PrepareKeepsCalls(s, i, c, j);
      }
    }
    forall p: Id
      ensures ProductOk(t, p)
    {
      assert ProductOk(s, p);
      if s.pcs[i].Inserted? || s.pcs[i].Committed? {
        ConcludeKeepsProduct(s, i, c, p);
      } else {
        PrepareKeepsProduct(s, i, c, p);
      }
    }
  }

  lemma EnvironmentKeeps(s: State, a: Action)
    requires !a.Move? && Next(s, a).Some? && Inv(s)
    ensures Inv(Next(s, a).value)
  {
    hide Sold, Priced, NeverOrdered;
    if a.CreateProduct? {
      assert ProductOk(s, a.product);
      NeverOrderedIsPriced(s.orders, a.product, a.row.price);
    }
    var t := Next(s, a).value;
    assert ProductOk(s, a.product);
    forall j | 0 <= j < |t.pcs|
      ensures CallOk(t, j)
    {
      assert CallOk(s, j);
    }
    forall p: Id
      ensures ProductOk(t, p)
    {
      assert ProductOk(s, p);
    }
  }

  lemma StepKeepsInv(s: State, a: Action)
    requires Inv(s) && Next(s, a).Some?
    ensures Inv(Next(s, a).value)
  {
    hide Inv, ReadStep, OrderStep;
    match a
    case Move(i, c) =>
      if s.pcs[i].Looking? || s.pcs[i].Missed? || s.pcs[i].Fetched? {
        ReadKeeps(s, i, c);
      } else {
        OrderKeeps(s, i, c);
      }
    case _ => EnvironmentKeeps(s, a);
  }

  lemma {:induction false} RunKeepsInv(s: State, actions: seq<Action>)
    requires Inv(s) && Exec(s, actions).Some?
    ensures Inv(Exec(s, actions).value)
    decreases actions
  {
    hide Inv, Next;
    if actions != [] {
      StepKeepsInv(s, actions[0]);
      RunKeepsInv(Next(s, actions[0]).value, actions[1..]);
    }
  }

  lemma InitialInv(s: State)
    requires Initial(s)
    ensures Inv(s)
  {
  }

  // ------------------------------------------------------------------
  // Theorems over every run
  // ------------------------------------------------------------------

  /** Under every interleaving of orders, failures, reads and expiries, and with
      no help from the database's own checks: stock never goes negative, and the
      stock a product was created with is what is left plus what committed orders
      took. Aborted orders take nothing. */
  lemma StockIsConserved(s: State, actions: seq<Action>, p: Id)
    requires Initial(s) && Exec(s, actions).Some? && p in Exec(s, actions).value.rows
    ensures var t := Exec(s, actions).value;
            t.rows[p].stock >= 0 && p in t.initial && t.initial[p] == t.rows[p].stock + Sold(t.orders, p)
  {
    InitialInv(s);
    RunKeepsInv(s, actions);
    hide Exec, Sold;
    assert ProductOk(Exec(s, actions).value, p);
  }

  /** Every committed order is for at least one unit, of a product that exists, at
      price times quantity whenever that fits in an int64. */
  lemma OrdersArePriced(s: State, actions: seq<Action>, k: nat)
    requires Initial(s) && Exec(s, actions).Some? && k < |Exec(s, actions).value.orders|
    ensures var t := Exec(s, actions).value;
            var order := t.orders[k];
            && order.quantity > 0 && order.product in t.rows
            && (-TWO63 <= t.rows[order.product].price * order.quantity < TWO63 ==>
                  order.total == t.rows[order.product].price * order.quantity)
  {
    InitialInv(s);
    RunKeepsInv(s, actions);
    hide Exec, Sold, Wrap64;
    var t := Exec(s, actions).value;
    assert ProductOk(t, t.orders[k].product);
  }

  /** Every cached product and every product returned to a caller is a version of
      its row that was committed, never uncommitted work. */
  lemma OnlyCommittedRowsAreSeen(s: State, actions: seq<Action>)
    requires Initial(s) && Exec(s, actions).Some?
    ensures var t := Exec(s, actions).value;
            && (forall p :: p in t.cache ==> t.cache[p] in History(t, p))
            && (forall i :: 0 <= i < |t.pcs| && t.pcs[i].Answered? && t.pcs[i].answer.Some? ==>
                  t.pcs[i].answer.value in History(t, t.pcs[i].product))
  {
    InitialInv(s);
    RunKeepsInv(s, actions);
    hide Exec, Sold;
    var t := Exec(s, actions).value;
    forall p | p in t.cache
      ensures t.cache[p] in History(t, p)
    {
      assert ProductOk(t, p);
    }
    forall i | 0 <= i < |t.pcs| && t.pcs[i].Answered? && t.pcs[i].answer.Some?
      ensures t.pcs[i].answer.value in History(t, t.pcs[i].product)
    {
      assert CallOk(t, i);
    }
  }

  /** History only records commits: a step that commits nothing leaves it alone,
      and what was recorded stays. */
  lemma HistoryIsCommits(s: State, a: Action, p: Id)
    requires Next(s, a).Some? && Inv(s)
    ensures Recorded(s, Next(s, a).value, p)
  {
    assert ProductOk(s, p);
    hide Sold, Wrap64, Prepare, Conclude, ReadStep, Recorded;
    if a.Move? {
      if s.pcs[a.i].Looking? || s.pcs[a.i].Missed? || s.pcs[a.i].Fetched? {
        ReadRecords(s, a.i, a.choice, p);
      } else if s.pcs[a.i].Inserted? || s.pcs[a.i].Committed? {
        ConcludeRecords(s, a.i, a.choice, p);
      } else {
        PrepareRecords(s, a.i, a.choice, p);
      }
    } else {
      EnvironmentRecords(s, a, p);
    }
  }

  /** What was recorded of `p` stays, and more is recorded only with the row it then has. */
  predicate Recorded(s: State, t: State, p: Id)
  {
    && History(s, p) <= History(t, p)
    && (History(t, p) != History(s, p) ==> p in t.rows && History(t, p) == History(s, p) + [t.rows[p]])
  }

  lemma ReadRecords(s: State, i: nat, c: Choice, p: Id)
    requires i < |s.pcs| && ReadStep(s, i, c).Some?
    ensures Recorded(s, ReadStep(s, i, c).value, p)
  {
    hide ReadTo;
  }

  lemma PrepareRecords(s: State, i: nat, c: Choice, p: Id)
    requires i < |s.pcs| && Prepare(s, i, c).Some?
    ensures Recorded(s, Prepare(s, i, c).value, p)
  {
    hide PrepareTo;
  }

  lemma ConcludeRecords(s: State, i: nat, c: Choice, p: Id)
    requires i < |s.pcs| && Conclude(s, i, c).Some?
    ensures Recorded(s, Conclude(s, i, c).value, p)
  {
  }

  lemma EnvironmentRecords(s: State, a: Action, p: Id)
    requires !a.Move? && Next(s, a).Some? && ProductOk(s, p)
    ensures Recorded(s, Next(s, a).value, p)
  {
    hide Sold, Priced, NeverOrdered;
  }

  // ------------------------------------------------------------------
  // Freshness of the cache
  // ------------------------------------------------------------------

  predicate DeletePending(s: State, p: Id)
  {
    exists i :: 0 <= i < |s.pcs| && s.pcs[i] == Committed(p)
  }

  /** The action commits an order for `p`. */
  predicate Commits(s: State, a: Action, p: Id)
  {
    a.Move? && a.i < |s.pcs| && s.pcs[a.i].Inserted? && s.pcs[a.i].product == p && a.choice.Proceed?
  }

  predicate Stale(s: State, p: Id)
  {
    p in s.cache && p in s.rows && s.cache[p] != s.rows[p]
  }

  /** The deletion of a stale copy fails, and nobody else is about to delete it. */
  predicate LosesDelete(s: State, a: Action)
  {
    && a.Move? && a.i < |s.pcs| && s.pcs[a.i].Committed? && a.choice.Fails? && Stale(s, s.pcs[a.i].product)
    && forall k :: 0 <= k < |s.pcs| && k != a.i ==> s.pcs[k] != s.pcs[a.i]
  }

  /** A commit falls between a reader's database read and its cache write for the
      same product. */
  predicate OvertakesReader(s: State, a: Action)
  {
    exists j :: 0 <= j < |s.pcs| && s.pcs[j].Fetched? && Commits(s, a, s.pcs[j].product)
  }

  predicate Spoils(s: State, a: Action)
  {
    LosesDelete(s, a) || OvertakesReader(s, a)
  }

  predicate UnspoiltRun(s: State, actions: seq<Action>)
    decreases actions
  {
    actions != [] ==>
      !Spoils(s, actions[0]) && (Next(s, actions[0]).Some? ==> UnspoiltRun(Next(s, actions[0]).value, actions[1..]))
  }

  /** A cached copy is the current row unless its deletion is on the way, and
      every reader about to populate the cache holds the current row. */
  ghost predicate Fresh(s: State)
  {
    && (forall p :: p in s.cache && p in s.rows ==> s.cache[p] == s.rows[p] || DeletePending(s, p))
    && (forall i :: 0 <= i < |s.pcs| && s.pcs[i].Fetched? ==> Holds(s, s.pcs[i].product, s.pcs[i].row))
  }

  /** Only the call that moves changes where it is. */
  predicate Moved(s: State, a: Action, t: State)
  {
    && |t.pcs| == |s.pcs|
    && (a.Move? ==> a.i < |s.pcs| && forall j :: 0 <= j < |s.pcs| && j != a.i ==> t.pcs[j] == s.pcs[j])
    && (!a.Move? ==> t.pcs == s.pcs)
  }

  /** What a step can do to the row, the cached copy and the readers of `p`. */
  predicate Effect(s: State, a: Action, t: State, p: Id)
    requires Moved(s, a, t)
  {
    && (p in s.rows ==> p in t.rows && (t.rows[p] == s.rows[p] || (Commits(s, a, p) && t.pcs[a.i] == Committed(p))))
    && (p in t.cache ==>
          || (p in s.cache && t.cache[p] == s.cache[p])
          || (a.Move? && s.pcs[a.i] == Fetched(p, t.cache[p])))
    && (a.Move? && s.pcs[a.i] == Committed(p) && a.choice.Proceed? ==> p !in t.cache)
    && (a.Move? && t.pcs[a.i].Fetched? && t.pcs[a.i].product == p ==> Holds(t, p, t.pcs[a.i].row))
  }

  lemma PrepareEffect(s: State, i: nat, c: Choice, p: Id)
    requires i < |s.pcs| && Prepare(s, i, c).Some?
    ensures Moved(s, Move(i, c), Prepare(s, i, c).value)
    ensures Effect(s, Move(i, c), Prepare(s, i, c).value, p)
  {
    hide PrepareTo;
  }

  lemma ConcludeMoves(s: State, i: nat, c: Choice)
    requires i < |s.pcs| && Conclude(s, i, c).Some?
    ensures Moved(s, Move(i, c), Conclude(s, i, c).value)
  {
    hide History;
  }

  lemma CommitEffect(s: State, i: nat, c: Choice, p: Id)
    requires i < |s.pcs| && s.pcs[i].Inserted?
    ensures Conclude(s, i, c).Some? && Moved(s, Move(i, c), Conclude(s, i, c).value)
    ensures Effect(s, Move(i, c), Conclude(s, i, c).value, p)
  {
    ConcludeMoves(s, i, c);
    hide History, Moved;
  }

  lemma DeleteEffect(s: State, i: nat, c: Choice, p: Id)
    requires i < |s.pcs| && s.pcs[i].Committed?
    ensures Conclude(s, i, c).Some? && Moved(s, Move(i, c), Conclude(s, i, c).value)
    ensures Effect(s, Move(i, c), Conclude(s, i, c).value, p)
  {
    ConcludeMoves(s, i, c);
    hide History, Moved;
  }

  lemma ConcludeEffect(s: State, i: nat, c: Choice, p: Id)
    requires i < |s.pcs| && (s.pcs[i].Inserted? || s.pcs[i].Committed?)
    ensures Conclude(s, i, c).Some? && Moved(s, Move(i, c), Conclude(s, i, c).value)
    ensures Effect(s, Move(i, c), Conclude(s, i, c).value, p)
  {
    hide Conclude, Moved, Effect;
    if s.pcs[i].Inserted? {
      CommitEffect(s, i, c, p);
    } else {
      DeleteEffect(s, i, c, p);
    }
  }

  lemma ReadEffect(s: State, i: nat, c: Choice, p: Id)
    requires i < |s.pcs| && ReadStep(s, i, c).Some?
    ensures Moved(s, Move(i, c), ReadStep(s, i, c).value)
    ensures Effect(s, Move(i, c), ReadStep(s, i, c).value, p)
  {
    hide ReadTo;
  }

  lemma StepEffect(s: State, a: Action, p: Id)
    requires Next(s, a).Some?
    ensures Moved(s, a, Next(s, a).value) && Effect(s, a, Next(s, a).value, p)
  {
    hide Prepare, Conclude, ReadStep;
    if a.Move? {
      hide Effect, Moved;
      if s.pcs[a.i].Looking? || s.pcs[a.i].Missed? || s.pcs[a.i].Fetched? {
        ReadEffect(s, a.i, a.choice, p);
      } else if s.pcs[a.i].Inserted? || s.pcs[a.i].Committed? {
        ConcludeEffect(s, a.i, a.choice, p);
      } else {
        PrepareEffect(s, a.i, a.choice, p);
      }
    }
  }

  lemma CachedStaysFresh(s: State, a: Action, p: Id)
    requires Inv(s) && Fresh(s) && !Spoils(s, a) && Next(s, a).Some?
    requires p in Next(s, a).value.cache && p in Next(s, a).value.rows
    ensures Next(s, a).value.cache[p] == Next(s, a).value.rows[p] || DeletePending(Next(s, a).value, p)
  {
    var t := Next(s, a).value;
    StepEffect(s, a, p);
    assert ProductOk(s, p);
    hide Next, Sold, CallOk;
    if a.Move? && Commits(s, a, p) && t.rows[p] != s.rows[p] {
      assert t.pcs[a.i] == Committed(p);
    } else if p in s.cache && t.cache[p] == s.cache[p] && Stale(s, p) {
      var k :| 0 <= k < |s.pcs| && s.pcs[k] == Committed(p) && !(a.Move? && a.i == k);
      assert t.pcs[k] == Committed(p);
    }
  }

  lemma ReaderStaysFresh(s: State, a: Action, i: nat)
    requires Fresh(s) && !Spoils(s, a) && Next(s, a).Some?
    requires i < |Next(s, a).value.pcs| && Next(s, a).value.pcs[i].Fetched?
    ensures Holds(Next(s, a).value, Next(s, a).value.pcs[i].product, Next(s, a).value.pcs[i].row)
  {
    StepEffect(s, a, Next(s, a).value.pcs[i].product);
    hide Next, DeletePending;
  }

  lemma StepStaysFresh(s: State, a: Action)
    requires Inv(s) && Fresh(s) && !Spoils(s, a) && Next(s, a).Some?
    ensures Fresh(Next(s, a).value)
  {
    var t := Next(s, a).value;
    hide Next, Inv, Spoils, DeletePending, Holds;
    forall p | p in t.cache && p in t.rows
      ensures t.cache[p] == t.rows[p] || DeletePending(t, p)
    {
      CachedStaysFresh(s, a, p);
    }
    forall i | 0 <= i < |t.pcs| && t.pcs[i].Fetched?
      ensures Holds(t, t.pcs[i].product, t.pcs[i].row)
    {
      ReaderStaysFresh(s, a, i);
    }
  }

  /** Losing the last deletion of a stale copy leaves it, with none pending. */
  lemma LostDeleteSpoils(s: State, a: Action)
    requires LosesDelete(s, a) && Next(s, a).Some?
    ensures Stale(Next(s, a).value, s.pcs[a.i].product) && !DeletePending(Next(s, a).value, s.pcs[a.i].product)
  {
  }

  /** A commit changes the row under every reader that has fetched it. */
  lemma OvertakingSpoils(s: State, a: Action)
    requires Inv(s) && Fresh(s) && OvertakesReader(s, a) && Next(s, a).Some?
    ensures !Fresh(Next(s, a).value)
  {
    hide Sold, Wrap64, ProductOk, DeletePending;
    var j :| 0 <= j < |s.pcs| && s.pcs[j].Fetched? && Commits(s, a, s.pcs[j].product);
    var p := s.pcs[j].product;
    var t := Next(s, a).value;
    assert CallOk(s, a.i) && Holds(s, p, s.pcs[j].row);
    assert t.pcs[j] == s.pcs[j] && t.rows[p].stock < s.rows[p].stock;
    assert !Holds(t, t.pcs[j].product, t.pcs[j].row);
  }

  /** From a fresh state, exactly the spoiling actions lead to one that is not. */
  lemma FreshUnlessSpoilt(s: State, a: Action)
    requires Inv(s) && Fresh(s) && Next(s, a).Some?
    ensures Fresh(Next(s, a).value) <==> !Spoils(s, a)
  {
    hide Next, Inv;
    if !Spoils(s, a) {
      StepStaysFresh(s, a);
    } else if LosesDelete(s, a) {
      LostDeleteSpoils(s, a);
    } else {
      OvertakingSpoils(s, a);
    }
  }

  lemma {:induction false} RunStaysFresh(s: State, actions: seq<Action>)
    requires Inv(s) && Fresh(s) && UnspoiltRun(s, actions) && Exec(s, actions).Some?
    ensures Fresh(Exec(s, actions).value)
    decreases actions
  {
    hide Inv, Fresh, Next, Spoils;
    if actions != [] {
      StepKeepsInv(s, actions[0]);
      StepStaysFresh(s, actions[0]);
      RunStaysFresh(Next(s, actions[0]).value, actions[1..]);
    }
  }

  /** In every run in which no commit falls into a reader's window for the same
      product and no stale copy's last deletion is lost, a cached copy equals the
      committed row whenever no deletion of it is pending. */
  lemma CacheAgrees(s: State, actions: seq<Action>, p: Id)
    requires Initial(s) && UnspoiltRun(s, actions) && Exec(s, actions).Some?
    requires p in Exec(s, actions).value.cache && !DeletePending(Exec(s, actions).value, p)
    ensures var t := Exec(s, actions).value;
            p in t.rows && t.cache[p] == t.rows[p]
  {
    InitialInv(s);
    RunKeepsInv(s, actions);
    RunStaysFresh(s, actions);
    hide Exec, Sold;
    assert ProductOk(Exec(s, actions).value, p);
  }

  /** A stale copy is there to stay: no deletion of it is on the way. */
  ghost predicate LeavesStale(s: State)
  {
    exists p :: Stale(s, p) && !DeletePending(s, p)
  }

  /** An unspoilt continuation leaves a stale copy behind. */
  ghost predicate GoesStale(s: State, actions: seq<Action>)
  {
    UnspoiltRun(s, actions) && Exec(s, actions).Some? && LeavesStale(Exec(s, actions).value)
  }

  /** A reader that holds an old row: let every pending deletion go through, those
      of calls before `n` being done, and then the reader populate the cache. */
  lemma {:induction false} OldReaderGoesStale(s: State, j: nat, n: nat) returns (actions: seq<Action>)
    requires j < |s.pcs| && n <= |s.pcs| && s.pcs[j].Fetched?
    requires s.pcs[j].product in s.rows && s.rows[s.pcs[j].product] != s.pcs[j].row
    requires forall k :: 0 <= k < n ==> s.pcs[k] != Committed(s.pcs[j].product)
    ensures GoesStale(s, actions)
    decreases |s.pcs| - n
  {
    var p := s.pcs[j].product;
    if n == |s.pcs| {
      actions := [Move(j, Proceed)];
      var t := Next(s, actions[0]).value;
      assert Exec(s, actions) == Some(t) && UnspoiltRun(s, actions) by {
        assert actions[1..] == [];
      }
      assert Stale(t, p) && !DeletePending(t, p);
    } else if s.pcs[n] != Committed(p) {
      actions := OldReaderGoesStale(s, j, n + 1);
    } else {
      var a := Move(n, Proceed);
      var t := Next(s, a).value;
      var rest := OldReaderGoesStale(t, j, n + 1);
      actions := [a] + rest;
      assert actions[1..] == rest && !Spoils(s, a);
    }
  }

  /** Freshness is exactly what keeps stale copies away: from any state of a run,
      some unspoilt continuation leaves a stale copy behind if and only if the
      state is not fresh. */
  lemma StaleIffNotFresh(s: State)
    requires Inv(s)
    ensures (exists actions: seq<Action> :: GoesStale(s, actions)) <==> !Fresh(s)
  {
    hide Exec, UnspoiltRun, Next;
    if Fresh(s) {
      forall actions: seq<Action>
        ensures !GoesStale(s, actions)
      {
        if UnspoiltRun(s, actions) && Exec(s, actions).Some? {
          RunStaysFresh(s, actions);
        }
      }
    } else if p :| p in s.cache && p in s.rows && s.cache[p] != s.rows[p] && !DeletePending(s, p) {
      StaysWhereItIs(s);
      assert Stale(s, p);
      assert GoesStale(s, []);
    } else {
      var j :| 0 <= j < |s.pcs| && s.pcs[j].Fetched? && !Holds(s, s.pcs[j].product, s.pcs[j].row);
      assert CallOk(s, j) && ProductOk(s, s.pcs[j].product);
      var actions := OldReaderGoesStale(s, j, 0);
    }
  }

  lemma StaysWhereItIs(s: State)
    ensures Exec(s, []) == Some(s) && UnspoiltRun(s, [])
  {
  }

  /** The converse of `CacheAgrees`, action by action: after an unspoilt run from the
      beginning, an action can be followed by a run that leaves a stale copy behind
      and is not itself to blame if and only if the action spoils. */
  lemma StaleIffSpoilt(s: State, before: seq<Action>, a: Action)
    requires Initial(s) && UnspoiltRun(s, before) && Exec(s, before).Some? && Next(Exec(s, before).value, a).Some?
    ensures (exists later: seq<Action> :: GoesStale(Next(Exec(s, before).value, a).value, later))
            <==> Spoils(Exec(s, before).value, a)
  {
    InitialInv(s);
    RunKeepsInv(s, before);
    RunStaysFresh(s, before);
    var u := Exec(s, before).value;
    hide Exec, Inv, Next, Fresh, Spoils, GoesStale;
    StepKeepsInv(u, a);
    FreshUnlessSpoilt(u, a);
    StaleIffNotFresh(Next(u, a).value);
  }

  /** A call that has started and not finished. */
  predicate Active(pc: Pc)
  {
    !pc.Placing? && !pc.Looking? && !pc.Ordered? && !pc.Answered?
  }

  /** The call that moves is the only one in progress, and its delete succeeds. */
  predicate Alone(s: State, a: Action)
  {
    a.Move? ==>
      && (forall j :: 0 <= j < |s.pcs| && j != a.i ==> !Active(s.pcs[j]))
      && (a.i < |s.pcs| && s.pcs[a.i].Committed? ==> a.choice.Proceed?)
  }

  predicate SerialRun(s: State, actions: seq<Action>)
    decreases actions
  {
    actions != [] ==>
      Alone(s, actions[0]) && (Next(s, actions[0]).Some? ==> SerialRun(Next(s, actions[0]).value, actions[1..]))
  }

  lemma {:induction false} SerialIsUnspoilt(s: State, actions: seq<Action>)
    requires SerialRun(s, actions)
    ensures UnspoiltRun(s, actions)
    decreases actions
  {
    if actions != [] {
      assert !Spoils(s, actions[0]);
      hide Spoils, Alone;
      if Next(s, actions[0]).Some? {
        hide Next;
        SerialIsUnspoilt(Next(s, actions[0]).value, actions[1..]);
      }
    }
  }

  /** Operations that do not overlap, with successful deletes: between operations
      a cached copy is absent or equal to the committed row. */
  lemma SerialOperationsAgree(s: State, actions: seq<Action>, p: Id)
    requires Initial(s) && SerialRun(s, actions) && Exec(s, actions).Some?
    requires forall i :: 0 <= i < |Exec(s, actions).value.pcs| ==> !Active(Exec(s, actions).value.pcs[i])
    ensures var t := Exec(s, actions).value;
            p in t.cache ==> p in t.rows && t.cache[p] == t.rows[p]
  {
    SerialIsUnspoilt(s, actions);
    hide Exec, UnspoiltRun, SerialRun;
    if p in Exec(s, actions).value.cache {
      CacheAgrees(s, actions, p);
    }
  }

  // ------------------------------------------------------------------
  // Both ways to spoil the cache, from the beginning
  // ------------------------------------------------------------------

  lemma TakeStep(s: State, before: seq<Action>, u: State, a: Action) returns (actions: seq<Action>, t: State)
    requires Exec(s, before) == Some(u) && Next(u, a).Some?
    ensures t == Next(u, a).value && Exec(s, actions) == Some(t)
  {
    ExecAppend(s, before, a);
    actions, t := before + [a], Next(u, a).value;
  }

  /** A reader of a product that is in the database and not in the cache, up to its
      cache write. */
  lemma FetchesRow(s: State, before: seq<Action>, u: State, j: nat) returns (actions: seq<Action>, t: State)
    requires Exec(s, before) == Some(u) && j < |u.pcs| && u.pcs[j].Looking?
    requires u.pcs[j].product in u.rows && u.pcs[j].product !in u.cache
    ensures Exec(s, actions) == Some(t)
    ensures t == u.(pcs := u.pcs[j := Fetched(u.pcs[j].product, u.rows[u.pcs[j].product])])
  {
    hide Exec;
    actions, t := TakeStep(s, before, u, Move(j, Proceed));
    actions, t := TakeStep(s, actions, t, Move(j, Proceed));
    assert t.pcs == u.pcs[j := Fetched(u.pcs[j].product, u.rows[u.pcs[j].product])];
  }

  /** An order with enough stock, up to its commit. */
  lemma CommitsOrder(s: State, before: seq<Action>, u: State, i: nat) returns (actions: seq<Action>, t: State)
    requires Exec(s, before) == Some(u) && i < |u.pcs| && u.pcs[i].Placing? && u.pcs[i].quantity > 0
    requires u.pcs[i].product in u.rows && u.pcs[i].product !in u.locks
    requires u.rows[u.pcs[i].product].stock >= u.pcs[i].quantity
    ensures var p := u.pcs[i].product;
            && Exec(s, actions) == Some(t) && t.pcs == u.pcs[i := Committed(p)]
            && t.cache == u.cache && p in t.rows && t.rows[p].stock < u.rows[p].stock
  {
    hide Exec, Wrap64;
    actions, t := TakeStep(s, before, u, Move(i, Proceed));
    actions, t := TakeStep(s, actions, t, Move(i, Proceed));
    actions, t := TakeStep(s, actions, t, Move(i, Proceed));
    actions, t := TakeStep(s, actions, t, Move(i, Proceed));
    assert t.pcs == u.pcs[i := Committed(u.pcs[i].product)];
  }

  lemma Deletes(s: State, before: seq<Action>, u: State, i: nat) returns (actions: seq<Action>, t: State)
    requires Exec(s, before) == Some(u) && i < |u.pcs| && u.pcs[i].Committed?
    ensures Exec(s, actions) == Some(t)
    ensures t == u.(cache := u.cache - {u.pcs[i].product}, pcs := u.pcs[i := Ordered(u.pcs[i].product, true)])
  {
    hide Exec;
    actions, t := TakeStep(s, before, u, Move(i, Proceed));
  }

  lemma Populates(s: State, before: seq<Action>, u: State, j: nat) returns (actions: seq<Action>, t: State)
    requires Exec(s, before) == Some(u) && j < |u.pcs| && u.pcs[j].Fetched?
    ensures Exec(s, actions) == Some(t)
    ensures var p, row := u.pcs[j].product, u.pcs[j].row;
            t == u.(cache := u.cache[p := row], pcs := u.pcs[j := Answered(p, Some(row))])
  {
    hide Exec;
    actions, t := TakeStep(s, before, u, Move(j, Proceed));
  }

  /** Whenever a product is both ordered and read, whatever it costs and however many
      there are: the commit falls into the reader's window, the writer deletes, the
      reader populates, and a stale copy is there to stay. */
  lemma OverlapGoesStale(s: State, i: nat, j: nat, row: Row) returns (actions: seq<Action>)
    requires Initial(s) && i < |s.pcs| && j < |s.pcs| && s.pcs[i].Placing? && s.pcs[j].Looking?
    requires s.pcs[i].product == s.pcs[j].product && row.stock >= s.pcs[i].quantity
    ensures Exec(s, actions).Some?
    ensures var t := Exec(s, actions).value; var p := s.pcs[i].product; Stale(t, p) && !DeletePending(t, p)
  {
    var p := s.pcs[i].product;
    var t;
    actions, t := TakeStep(s, [], s, CreateProduct(p, row));
    hide Exec;
    actions, t := FetchesRow(s, actions, t, j);
    actions, t := CommitsOrder(s, actions, t, i);
    actions, t := Deletes(s, actions, t, i);
    actions, t := Populates(s, actions, t, j);
  }

  /** Likewise: the reader populates, the order commits, its delete fails. */
  lemma LostDeleteGoesStale(s: State, i: nat, j: nat, row: Row) returns (actions: seq<Action>)
    requires Initial(s) && i < |s.pcs| && j < |s.pcs| && s.pcs[i].Placing? && s.pcs[j].Looking?
    requires s.pcs[i].product == s.pcs[j].product && row.stock >= s.pcs[i].quantity
    ensures Exec(s, actions).Some?
    ensures var t := Exec(s, actions).value; var p := s.pcs[i].product; Stale(t, p) && !DeletePending(t, p)
  {
    var p := s.pcs[i].product;
    var t;
    actions, t := TakeStep(s, [], s, CreateProduct(p, row));
    hide Exec;
    actions, t := FetchesRow(s, actions, t, j);
    actions, t := Populates(s, actions, t, j);
    actions, t := CommitsOrder(s, actions, t, i);
    actions, t := TakeStep(s, actions, t, Move(i, Fails));
  }

  lemma {:induction false} ExecAppend(s: State, actions: seq<Action>, last: Action)
    requires Exec(s, actions).Some?
    ensures Exec(s, actions + [last]) == Next(Exec(s, actions).value, last)
    decreases actions
  {
    hide Next;
    if actions == [] {
      assert actions + [last] == [last];
      assert Exec(s, [last]) == Next(s, last);
    } else {
      assert (actions + [last])[1..] == actions[1..] + [last];
      ExecAppend(Next(s, actions[0]).value, actions[1..], last);
    }
  }

  // ------------------------------------------------------------------
  // Orders are exactly the calls that succeeded
  // ------------------------------------------------------------------

  /** The call has placed its order. */
  predicate Placed(pc: Pc)
  {
    pc.Committed? || (pc.Ordered? && pc.placed)
  }

  /** The call has failed to. */
  predicate NotPlaced(pc: Pc)
  {
    pc.Ordered? && !pc.placed
  }

  predicate IsOrder(pc: Pc)
  {
    pc.Placing? || InTransaction(pc) || pc.Committed? || pc.Ordered?
  }

  /** The call is still about what it was called with. */
  predicate SameCall(before: Pc, pc: Pc)
  {
    && pc.product == before.product && (IsOrder(pc) <==> IsOrder(before))
    && (before.Placing? && (pc.Placing? || InTransaction(pc)) ==> pc.quantity == before.quantity)
  }

  /** What the calls before `n` that have succeeded had asked for. */
  function Requests(begin: seq<Pc>, now: seq<Pc>, n: nat): multiset<(Id, int)>
    requires n <= |begin| == |now|
  {
    if n == 0 then multiset{} else
      Requests(begin, now, n - 1)
      + (if begin[n - 1].Placing? && Placed(now[n - 1]) then multiset{(begin[n - 1].product, begin[n - 1].quantity)} else multiset{})
  }

  /** What the orders are for. */
  function Contents(orders: seq<Order>): multiset<(Id, int)>
  {
    if orders == [] then multiset{} else
      var last := orders[|orders| - 1];
      Contents(orders[..|orders| - 1]) + multiset{(last.product, last.quantity)}
  }

  lemma {:induction false} RequestsSame(begin: seq<Pc>, now: seq<Pc>, later: seq<Pc>, n: nat)
    requires n <= |begin| == |now| == |later| && forall j :: 0 <= j < n ==> (Placed(now[j]) <==> Placed(later[j]))
    ensures Requests(begin, now, n) == Requests(begin, later, n)
  {
    if n > 0 {
      RequestsSame(begin, now, later, n - 1);
    }
  }

  lemma {:induction false} RequestsGrow(begin: seq<Pc>, now: seq<Pc>, i: nat, pc: Pc, n: nat)
    requires i < n <= |begin| == |now| && begin[i].Placing? && !Placed(now[i]) && Placed(pc)
    ensures Requests(begin, now[i := pc], n) == Requests(begin, now, n) + multiset{(begin[i].product, begin[i].quantity)}
  {
    if i == n - 1 {
      RequestsSame(begin, now, now[i := pc], n - 1);
    } else {
      RequestsGrow(begin, now, i, pc, n - 1);
    }
  }

  /** Call `i`, called with `before`, goes from `s` to `t`: an order is added exactly when
      it gets placed, and that is for what it was called with. */
  predicate PlacedOk(s: State, t: State, i: nat, before: Pc)
    requires i < |s.pcs|
  {
    && |t.pcs| == |s.pcs| && t.pcs == s.pcs[i := t.pcs[i]] && SameCall(before, t.pcs[i])
    && if s.pcs[i].Inserted? && !NotPlaced(t.pcs[i])
       then && before.Placing? && Placed(t.pcs[i])
            && t.orders == s.orders + [s.pcs[i].order]
            && s.pcs[i].order.product == before.product && s.pcs[i].order.quantity == before.quantity
       else t.orders == s.orders && (Placed(t.pcs[i]) <==> Placed(s.pcs[i]))
  }

  lemma PreparePlaces(s: State, i: nat, c: Choice, before: Pc)
    requires i < |s.pcs| && Prepare(s, i, c).Some? && SameCall(before, s.pcs[i]) && (before.Placing? || before.Looking?)
    ensures PlacedOk(s, Prepare(s, i, c).value, i, before)
  {
    hide NewOrder, Decrement;
  }

  lemma ConcludePlaces(s: State, i: nat, c: Choice, before: Pc)
    requires i < |s.pcs| && Conclude(s, i, c).Some? && SameCall(before, s.pcs[i]) && (before.Placing? || before.Looking?)
    requires CallOk(s, i)
    ensures PlacedOk(s, Conclude(s, i, c).value, i, before)
  {
    hide History, Wrap64, Decrement;
  }

  lemma ReadPlaces(s: State, i: nat, c: Choice, before: Pc)
    requires i < |s.pcs| && ReadStep(s, i, c).Some? && SameCall(before, s.pcs[i])
    requires s.pcs[i].Looking? || s.pcs[i].Missed? || s.pcs[i].Fetched?
    ensures PlacedOk(s, ReadStep(s, i, c).value, i, before)
  {
  }

  lemma MovePlaces(s: State, i: nat, c: Choice, before: Pc)
    requires i < |s.pcs| && CallOk(s, i) && Next(s, Move(i, c)).Some?
    requires SameCall(before, s.pcs[i]) && (before.Placing? || before.Looking?)
    ensures PlacedOk(s, Next(s, Move(i, c)).value, i, before)
  {
    hide Prepare, Conclude, ReadStep, CallOk, PlacedOk, SameCall;
    if s.pcs[i].Looking? || s.pcs[i].Missed? || s.pcs[i].Fetched? {
      ReadPlaces(s, i, c, before);
    } else if s.pcs[i].Inserted? || s.pcs[i].Committed? {
      ConcludePlaces(s, i, c, before);
    } else {
      PreparePlaces(s, i, c, before);
    }
  }

  lemma ContentsGrow(orders: seq<Order>, order: Order)
    ensures Contents(orders + [order]) == Contents(orders) + multiset{(order.product, order.quantity)}
  {
    assert (orders + [order])[..|orders|] == orders;
  }

  /** The calls are still about what they were called with, and the orders are for what
      the calls that succeeded asked for. */
  predicate BooksOk(begin: seq<Pc>, s: State)
  {
    && |begin| == |s.pcs|
    && (forall i :: 0 <= i < |s.pcs| ==> SameCall(begin[i], s.pcs[i]))
    && Contents(s.orders) == Requests(begin, s.pcs, |s.pcs|)
  }

  lemma StepKeepsBooks(s: State, a: Action, begin: seq<Pc>)
    requires Inv(s) && Next(s, a).Some? && BooksOk(begin, s)
    requires forall i :: 0 <= i < |begin| ==> begin[i].Placing? || begin[i].Looking?
    ensures BooksOk(begin, Next(s, a).value)
  {
    var t := Next(s, a).value;
    if a.Move? {
      assert CallOk(s, a.i);
      MovePlaces(s, a.i, a.choice, begin[a.i]);
      MoveKeepsBooks(s, t, a.i, begin);
    } else {
      hide Contents, Requests, SameCall, ProductOk, CallOk;
    }
  }

  lemma MoveKeepsBooks(s: State, t: State, i: nat, begin: seq<Pc>)
    requires BooksOk(begin, s) && i < |s.pcs| && PlacedOk(s, t, i, begin[i])
    ensures BooksOk(begin, t)
  {
    hide SameCall, Contents, Requests;
    if s.pcs[i].Inserted? && !NotPlaced(t.pcs[i]) {
      ContentsGrow(s.orders, s.pcs[i].order);
      RequestsGrow(begin, s.pcs, i, t.pcs[i], |s.pcs|);
    } else {
      RequestsSame(begin, s.pcs, t.pcs, |s.pcs|);
    }
  }

  lemma {:induction false} RunKeepsBooks(s: State, actions: seq<Action>, begin: seq<Pc>)
    requires Inv(s) && Exec(s, actions).Some? && BooksOk(begin, s)
    requires forall i :: 0 <= i < |begin| ==> begin[i].Placing? || begin[i].Looking?
    ensures BooksOk(begin, Exec(s, actions).value)
    decreases actions
  {
    hide Inv, Next, BooksOk;
    if actions != [] {
      StepKeepsInv(s, actions[0]);
      StepKeepsBooks(s, actions[0], begin);
      RunKeepsBooks(Next(s, actions[0]).value, actions[1..], begin);
    }
  }

  lemma {:induction false} NoRequests(pcs: seq<Pc>, n: nat)
    requires n <= |pcs| && forall i :: 0 <= i < |pcs| ==> !Placed(pcs[i])
    ensures Requests(pcs, pcs, n) == multiset{}
  {
    if n > 0 {
      NoRequests(pcs, n - 1);
    }
  }

  /** In every run the committed orders are, one for one, the calls that succeeded: each is
      for the product and the quantity its call asked for, and no call has two. */
  lemma OrdersAreTheCalls(s: State, actions: seq<Action>)
    requires Initial(s) && Exec(s, actions).Some?
    ensures var t := Exec(s, actions).value;
            |t.pcs| == |s.pcs| && Contents(t.orders) == Requests(s.pcs, t.pcs, |s.pcs|)
  {
    InitialInv(s);
    NoRequests(s.pcs, |s.pcs|);
    hide Exec;
    RunKeepsBooks(s, actions, s.pcs);
  }

  // ------------------------------------------------------------------
  // Why an order fails
  // ------------------------------------------------------------------

  /** The action ends the order of call `i`: an operation of its transaction fails, the
      product does not exist, or there is too little of it. */
  predicate Refused(s: State, a: Action, i: nat)
  {
    && a.Move? && a.i == i && i < |s.pcs| && (s.pcs[i].Placing? || InTransaction(s.pcs[i]))
    && (|| a.choice.Fails?
        || s.pcs[i].product !in s.rows
        || (s.pcs[i].RowLocked? && s.rows[s.pcs[i].product].stock < s.pcs[i].quantity))
  }

  lemma PrepareRefuses(s: State, i: nat, c: Choice)
    requires i < |s.pcs| && CallOk(s, i) && Prepare(s, i, c).Some? && !s.pcs[i].Inserted?
    ensures |Prepare(s, i, c).value.pcs| == |s.pcs|
    ensures NotPlaced(Prepare(s, i, c).value.pcs[i]) <==> NotPlaced(s.pcs[i]) || Refused(s, Move(i, c), i)
  {
    hide Wrap64, Decrement, NewOrder, History;
  }

  lemma ConcludeRefuses(s: State, i: nat, c: Choice)
    requires i < |s.pcs| && CallOk(s, i) && Conclude(s, i, c).Some?
    ensures |Conclude(s, i, c).value.pcs| == |s.pcs|
    ensures NotPlaced(Conclude(s, i, c).value.pcs[i]) <==> NotPlaced(s.pcs[i]) || Refused(s, Move(i, c), i)
  {
    hide Wrap64, Decrement, NewOrder, History;
  }

  lemma MoveRefuses(s: State, i: nat, c: Choice)
    requires i < |s.pcs| && CallOk(s, i) && Next(s, Move(i, c)).Some?
    ensures |Next(s, Move(i, c)).value.pcs| == |s.pcs|
    ensures NotPlaced(Next(s, Move(i, c)).value.pcs[i]) <==> NotPlaced(s.pcs[i]) || Refused(s, Move(i, c), i)
  {
    hide Prepare, Conclude, CallOk;
    if s.pcs[i].Looking? || s.pcs[i].Missed? || s.pcs[i].Fetched? {
    } else if s.pcs[i].Inserted? || s.pcs[i].Committed? {
      ConcludeRefuses(s, i, c);
    } else {
      PrepareRefuses(s, i, c);
    }
  }

  lemma StepRefuses(s: State, a: Action, i: nat)
    requires Inv(s) && Next(s, a).Some? && i < |s.pcs|
    ensures var t := Next(s, a).value;
            |t.pcs| == |s.pcs| && (NotPlaced(t.pcs[i]) <==> NotPlaced(s.pcs[i]) || Refused(s, a, i))
  {
    if a.Move? {
      assert CallOk(s, a.i);
      MoveRefuses(s, a.i, a.choice);
      StepEffect(s, a, 0);
      hide Next, Effect, Inv;
    } else {
      hide ProductOk, CallOk;
    }
  }

  /** Call `i` was refused at action `n` of the run. */
  predicate RefusedAt(s: State, actions: seq<Action>, n: nat, i: nat)
    requires n < |actions|
  {
    Exec(s, actions[..n]).Some? && Refused(Exec(s, actions[..n]).value, actions[n], i)
  }

  lemma {:induction false} ExecPrefix(s: State, actions: seq<Action>)
    requires actions != [] && Exec(s, actions).Some?
    ensures var init := actions[..|actions| - 1];
            Exec(s, init).Some? && Exec(s, actions) == Next(Exec(s, init).value, actions[|actions| - 1])
    decreases actions
  {
    hide Next;
    if |actions| == 1 {
      assert actions[1..] == [] && actions[..0] == [];
    } else {
      var rest := actions[1..];
      assert rest[..|rest| - 1] == actions[..|actions| - 1][1..];
      ExecPrefix(Next(s, actions[0]).value, rest);
    }
  }

  /** Call `i` was refused somewhere in the run. */
  predicate EverRefused(s: State, actions: seq<Action>, i: nat)
  {
    exists n :: 0 <= n < |actions| && RefusedAt(s, actions, n, i)
  }

  lemma RefusedSoFar(s: State, actions: seq<Action>, i: nat)
    requires actions != []
    ensures var m := |actions| - 1;
            EverRefused(s, actions, i) <==> EverRefused(s, actions[..m], i) || RefusedAt(s, actions, m, i)
  {
    hide Exec, Refused;
    var m := |actions| - 1;
    forall n | 0 <= n < m
      ensures RefusedAt(s, actions[..m], n, i) <==> RefusedAt(s, actions, n, i)
    {
      assert actions[..m][..n] == actions[..n];
    }
  }

  /** Exactly when an order fails, in every run: if and only if at some point an operation
      of its transaction failed, its product did not exist, or there was too little of it
      when its row was locked. Other orders and readers never make it fail. */
  lemma {:induction false} FailsForAReason(s: State, actions: seq<Action>, i: nat)
    requires Initial(s) && Exec(s, actions).Some? && i < |s.pcs|
    ensures i < |Exec(s, actions).value.pcs|
    ensures NotPlaced(Exec(s, actions).value.pcs[i]) <==> EverRefused(s, actions, i)
    decreases actions
  {
    if actions != [] {
      ExecPrefix(s, actions);
      var init := actions[..|actions| - 1];
      InitialInv(s);
      hide Exec, Next, Inv, Refused, NotPlaced, EverRefused;
      FailsForAReason(s, init, i);
      RunKeepsInv(s, init);
      StepRefuses(Exec(s, init).value, actions[|actions| - 1], i);
      RefusedSoFar(s, actions, i);
    }
  }

  // ------------------------------------------------------------------
  // Every call can come to its end
  // ------------------------------------------------------------------

  /** Every row lock is held by a call that is in a transaction on that row. */
  predicate LocksOk(s: State)
  {
    forall p :: p in s.locks ==> s.locks[p] < |s.pcs| && InTransaction(s.pcs[s.locks[p]]) && s.pcs[s.locks[p]].product == p
  }

  lemma PrepareKeepsLocks(s: State, i: nat, c: Choice)
    requires i < |s.pcs| && CallOk(s, i) && LocksOk(s) && Prepare(s, i, c).Some?
    ensures LocksOk(Prepare(s, i, c).value)
  {
    hide Wrap64, Decrement, NewOrder, History;
  }

  lemma ConcludeKeepsLocks(s: State, i: nat, c: Choice)
    requires i < |s.pcs| && CallOk(s, i) && LocksOk(s) && Conclude(s, i, c).Some?
    ensures LocksOk(Conclude(s, i, c).value)
  {
    hide Wrap64, Decrement, NewOrder, History;
  }

  lemma ReadKeepsLocks(s: State, i: nat, c: Choice)
    requires i < |s.pcs| && LocksOk(s) && ReadStep(s, i, c).Some?
    ensures LocksOk(ReadStep(s, i, c).value)
  {
  }

  lemma StepKeepsLocks(s: State, a: Action)
    requires Inv(s) && LocksOk(s) && Next(s, a).Some?
    ensures LocksOk(Next(s, a).value)
  {
    hide Prepare, Conclude, ReadStep, CallOk, ProductOk;
    if a.Move? {
      hide LocksOk;
      assert CallOk(s, a.i);
      if s.pcs[a.i].Looking? || s.pcs[a.i].Missed? || s.pcs[a.i].Fetched? {
        ReadKeepsLocks(s, a.i, a.choice);
      } else if s.pcs[a.i].Inserted? || s.pcs[a.i].Committed? {
        ConcludeKeepsLocks(s, a.i, a.choice);
      } else {
        PrepareKeepsLocks(s, a.i, a.choice);
      }
    }
  }

  lemma {:induction false} RunKeepsLocks(s: State, actions: seq<Action>)
    requires Inv(s) && LocksOk(s) && Exec(s, actions).Some?
    ensures LocksOk(Exec(s, actions).value)
    decreases actions
  {
    hide Inv, Next, LocksOk;
    if actions != [] {
      StepKeepsInv(s, actions[0]);
      StepKeepsLocks(s, actions[0]);
      RunKeepsLocks(Next(s, actions[0]).value, actions[1..]);
    }
  }

  /** How many operations a call has before it. */
  function Rank(pc: Pc): nat
  {
    match pc
    case Placing(_, _) => 5
    case RowLocked(_, _, _) => 4
    case Decremented(_, _, _, _) => 3
    case Inserted(_, _, _, _, _) => 2
    case Committed(_) => 1
    case Looking(_) => 3
    case Missed(_) => 2
    case Fetched(_, _) => 1
    case _ => 0
  }

  /** The step moves call `i` on, and no other. */
  predicate MovedOn(s: State, t: State, i: nat)
    requires i < |s.pcs|
  {
    |t.pcs| == |s.pcs| && t.pcs == s.pcs[i := t.pcs[i]] && Rank(t.pcs[i]) < Rank(s.pcs[i])
  }

  lemma PrepareMovesOn(s: State, i: nat, c: Choice)
    requires i < |s.pcs| && Prepare(s, i, c).Some?
    ensures MovedOn(s, Prepare(s, i, c).value, i)
  {
    hide NewOrder, Decrement;
  }

  lemma ConcludeMovesOn(s: State, i: nat, c: Choice)
    requires i < |s.pcs| && Conclude(s, i, c).Some?
    ensures MovedOn(s, Conclude(s, i, c).value, i)
  {
    hide History;
  }

  lemma ReadMovesOn(s: State, i: nat, c: Choice)
    requires i < |s.pcs| && ReadStep(s, i, c).Some?
    ensures MovedOn(s, ReadStep(s, i, c).value, i)
  {
  }

  lemma MoveRanks(s: State, i: nat, c: Choice)
    requires i < |s.pcs| && Next(s, Move(i, c)).Some?
    ensures MovedOn(s, Next(s, Move(i, c)).value, i)
  {
    hide Prepare, Conclude, ReadStep, MovedOn;
    if s.pcs[i].Looking? || s.pcs[i].Missed? || s.pcs[i].Fetched? {
      ReadMovesOn(s, i, c);
    } else if s.pcs[i].Inserted? || s.pcs[i].Committed? {
      ConcludeMovesOn(s, i, c);
    } else {
      PrepareMovesOn(s, i, c);
    }
  }

  lemma CanMove(s: State, i: nat)
    requires i < |s.pcs| && Rank(s.pcs[i]) > 0
    requires s.pcs[i].Placing? && s.pcs[i].product in s.rows ==> s.pcs[i].product !in s.locks
    ensures Next(s, Move(i, Proceed)).Some?
  {
    hide History, NewOrder, Decrement;
  }

  /** No call is ever stuck: from every state of a run any call can be brought to its end,
      without any operation failing. A call that waits for a row lock waits for a call that
      can finish. */
  lemma {:induction false} EveryCallCanEnd(s: State, i: nat) returns (actions: seq<Action>)
    requires Inv(s) && LocksOk(s) && i < |s.pcs|
    ensures Exec(s, actions).Some? && |Exec(s, actions).value.pcs| == |s.pcs| && Rank(Exec(s, actions).value.pcs[i]) == 0
    ensures forall a :: a in actions ==> a.Move? && a.choice.Proceed?
    decreases Rank(s.pcs[i]), if Waits(s, i) then Rank(s.pcs[s.locks[s.pcs[i].product]]) else 0
  {
    if Rank(s.pcs[i]) == 0 {
      actions := [];
    } else {
      var j := if Waits(s, i) then s.locks[s.pcs[i].product] else i;
      var a := Move(j, Proceed);
      CanMove(s, j);
      MoveRanks(s, j, Proceed);
      StepKeepsInv(s, a);
      StepKeepsLocks(s, a);
      if Waits(s, i) {
        HolderHolds(s, i, j);
      }
      hide Inv, Next, LocksOk, Rank, InTransaction;
      var rest := EveryCallCanEnd(Next(s, a).value, i);
      actions := [a] + rest;
      assert actions[1..] == rest;
    }
  }

  predicate Waits(s: State, i: nat)
    requires i < |s.pcs|
  {
    && s.pcs[i].Placing? && s.pcs[i].product in s.rows && s.pcs[i].product in s.locks
    && s.locks[s.pcs[i].product] < |s.pcs|
  }

  /** So it is in every state of a run from the beginning. */
  lemma CallsOfARunCanEnd(s: State, before: seq<Action>, i: nat) returns (actions: seq<Action>)
    requires Initial(s) && Exec(s, before).Some? && i < |Exec(s, before).value.pcs|
    ensures var t := Exec(s, before).value;
            Exec(t, actions).Some? && |Exec(t, actions).value.pcs| == |t.pcs| && Rank(Exec(t, actions).value.pcs[i]) == 0
  {
    InitialInv(s);
    RunKeepsInv(s, before);
    RunKeepsLocks(s, before);
    hide Exec, Inv;
    actions := EveryCallCanEnd(Exec(s, before).value, i);
  }

  lemma HolderHolds(s: State, i: nat, j: nat)
    requires Inv(s) && LocksOk(s) && i < |s.pcs| && Waits(s, i) && j == s.locks[s.pcs[i].product]
    requires Next(s, Move(j, Proceed)).Some?
    ensures var t := Next(s, Move(j, Proceed)).value;
            i != j && |t.pcs| == |s.pcs| && (Waits(t, i) ==> t.locks[t.pcs[i].product] == j)
  {
    assert CallOk(s, j);
    hide Inv, Sold, Wrap64, Decrement, History, NewOrder;
  }
}
