/** `core.TraceHandler`: handler operations recorded and replayed on the base
    handler after the trace attributes. */
module TraceHandler {
  import opened Common

  datatype Attr = Attr(key: string, value: int)

  datatype Op = Group(name: int) | Attrs(attrs: seq<Attr>)

  /** An emitted record: attributes and groups in order. */
  datatype Node = Leaf(attr: Attr) | Sub(name: int, nodes: seq<Node>)

  /** A base `slog.Handler`: the groups opened on it, outermost first, each with the
      attributes added while it was innermost. The first frame is the root. */
  datatype Frame = Frame(name: int, attrs: seq<Attr>)
  datatype Handler = Handler(root: seq<Attr>, groups: seq<Frame>)

  function WithAttrs(h: Handler, attrs: seq<Attr>): Handler
  {
    if h.groups == [] then h.(root := h.root + attrs) else
      var n := |h.groups| - 1;
      h.(groups := h.groups[n := h.groups[n].(attrs := h.groups[n].attrs + attrs)])
  }

  function WithGroup(h: Handler, name: int): Handler
  {
    h.(groups := h.groups + [Frame(name, [])])
  }

  function Apply(h: Handler, op: Op): Handler
  {
    match op
    case Group(name) => WithGroup(h, name)
    case Attrs(attrs) => WithAttrs(h, attrs)
  }

  /** The base handler after a sequence of `WithAttrs` and `WithGroup` calls. */
  function Derived(h: Handler, ops: seq<Op>): Handler
  {
    if ops == [] then h else Apply(Derived(h, ops[..|ops| - 1]), ops[|ops| - 1])
  }

  function Leaves(attrs: seq<Attr>): (r: seq<Node>)
    ensures |r| == |attrs| && forall i :: 0 <= i < |r| ==> r[i] == Leaf(attrs[i])
  {
    if attrs == [] then [] else Leaves(attrs[..|attrs| - 1]) + [Leaf(attrs[|attrs| - 1])]
  }

  /** The groups around the record's own attributes, from the outside in. */
  function Nest(groups: seq<Frame>, record: seq<Attr>): seq<Node>
  {
    if groups == [] then Leaves(record) else
      [Sub(groups[0].name, Leaves(groups[0].attrs) + Nest(groups[1..], record))]
  }

  /** What a handler emits for a record. */
  function Emit(h: Handler, record: seq<Attr>): seq<Node>
  {
    Leaves(h.root) + Nest(h.groups, record)
  }

  datatype Span = Span(traceId: int, spanId: int)

  const TRACE_ID := "trace_id"
  const SPAN_ID := "span_id"

  function TraceAttrs(span: Option<Span>): seq<Attr>
  {
    match span
    case None => []
    case Some(s) => [Attr(TRACE_ID, s.traceId), Attr(SPAN_ID, s.spanId)]
  }

  /** The handler: its base and the operations recorded so far, in an array of its own. */
  class Tracer {
    const base: Handler
    const ops: array<Op>

    constructor (base: Handler, ops: array<Op>)
      ensures this.base == base && this.ops == ops
    {
      this.base := base;
      this.ops := ops;
    }

    /** Copies the operations and appends one: the new handler has its own array. */
    method With(op: Op) returns (h: Tracer)
      ensures fresh(h) && fresh(h.ops)
      ensures h.base == base && h.ops[..] == ops[..] + [op]
    {
      var newOps := new Op[ops.Length + 1]
        (i requires 0 <= i <= ops.Length reads ops => if i < ops.Length then ops[i] else op);
      h := new Tracer(base, newOps);
    }

    /** Handles a record: the span's attributes on the base, then the replay. */
    method Handle(span: Option<Span>, record: seq<Attr>) returns (out: seq<Node>)
      ensures out == Emit(Derived(WithAttrs(base, TraceAttrs(span)), ops[..]), record)
    {
      var handler := base;
      if span.Some? {
        handler := WithAttrs(handler, TraceAttrs(span));
      }
      ghost var start := WithAttrs(base, TraceAttrs(span));
      NoAttrs(base);
      for i := 0 to ops.Length
        invariant handler == Derived(start, ops[..i])
      {
        assert ops[..i + 1][..i] == ops[..i];
        match ops[i]
        case Group(name) => handler := WithGroup(handler, name);
        case Attrs(attrs) => handler := WithAttrs(handler, attrs);
      }
      assert ops[..ops.Length] == ops[..];
      out := Emit(handler, record);
    }
  }

  lemma NoAttrs(h: Handler)
    ensures WithAttrs(h, []) == h
  {
    if h.groups == [] {
      assert h.root + [] == h.root;
    } else {
      var n := |h.groups| - 1;
      assert h.groups[n].attrs + [] == h.groups[n].attrs;
      assert h.groups[n := h.groups[n]] == h.groups;
    }
  }

  /** The attributes at a depth: zero is the root, `|h.groups|` the innermost group. */
  function AttrsAt(h: Handler, depth: nat): seq<Attr>
    requires depth <= |h.groups|
  {
    if depth == 0 then h.root else h.groups[depth - 1].attrs
  }

  /** `h` with attributes inserted at a depth, after the first `pos` there. */
  function Insert(h: Handler, depth: nat, pos: nat, extra: seq<Attr>): Handler
    requires depth <= |h.groups| && pos <= |AttrsAt(h, depth)|
  {
    var attrs := AttrsAt(h, depth);
    var more := attrs[..pos] + extra + attrs[pos..];
    if depth == 0 then h.(root := more)
    else h.(groups := h.groups[depth - 1 := h.groups[depth - 1].(attrs := more)])
  }

  lemma InsertCommutes(h: Handler, depth: nat, pos: nat, extra: seq<Attr>, op: Op)
    requires depth <= |h.groups| && pos <= |AttrsAt(h, depth)|
    ensures var after := Apply(h, op);
            && depth <= |after.groups| && pos <= |AttrsAt(after, depth)|
            && AttrsAt(after, depth)[..pos] == AttrsAt(h, depth)[..pos]
            && Apply(Insert(h, depth, pos, extra), op) == Insert(after, depth, pos, extra)
  {
    var attrs := AttrsAt(h, depth);
    if op.Attrs? && depth == |h.groups| {
      assert (attrs + op.attrs)[..pos] == attrs[..pos];
      assert (attrs + op.attrs)[pos..] == attrs[pos..] + op.attrs;
      assert (attrs[..pos] + extra + attrs[pos..]) + op.attrs == attrs[..pos] + extra + (attrs[pos..] + op.attrs);
    }
  }

  /** Attributes added before a replay stay where they were added, right after the
      base handler's own, whatever the replay does. */
  lemma {:induction false} AttrsStayPut(h: Handler, extra: seq<Attr>, ops: seq<Op>)
    ensures var depth := |h.groups|;
            var plain := Derived(h, ops);
            && depth <= |plain.groups| && AttrsAt(h, depth) <= AttrsAt(plain, depth)
            && Derived(WithAttrs(h, extra), ops) == Insert(plain, depth, |AttrsAt(h, depth)|, extra)
  {
    var depth := |h.groups|;
    var own := AttrsAt(h, depth);
    if ops == [] {
      assert own[..|own|] + extra + own[|own|..] == own + extra;
    } else {
      var init := ops[..|ops| - 1];
      AttrsStayPut(h, extra, init);
      InsertCommutes(Derived(h, init), depth, |own|, extra, ops[|ops| - 1]);
      hide Apply, Insert;
    }
  }

  lemma {:induction false} LeavesAppend(a: seq<Attr>, b: seq<Attr>)
    ensures Leaves(a + b) == Leaves(a) + Leaves(b)
  {
  }

  /** For every sequence of `WithAttrs` and `WithGroup` calls on a traced handler
      over a base with no group open: the record is the base handler's record for
      the same calls, with the trace attributes inserted at the root right after the
      base's own, never inside a group; without a valid span it is the same record. */
  lemma TraceAttrsAreAtTheRoot(base: Handler, span: Option<Span>, ops: seq<Op>, record: seq<Attr>)
    requires base.groups == []
    ensures var plain := Emit(Derived(base, ops), record);
            var traced := Emit(Derived(WithAttrs(base, TraceAttrs(span)), ops), record);
            && |base.root| <= |plain|
            && traced == plain[..|base.root|] + Leaves(TraceAttrs(span)) + plain[|base.root|..]
  {
    AttrsStayPut(base, TraceAttrs(span), ops);
    hide Derived, WithAttrs, Nest, Leaves;
    var plain := Derived(base, ops);
    var own, rest := plain.root[..|base.root|], plain.root[|base.root|..];
    assert plain.root == own + rest;
    LeavesAppend(own, rest);
    LeavesAppend(own, TraceAttrs(span));
    LeavesAppend(own + TraceAttrs(span), rest);
    Splice(Leaves(own), Leaves(TraceAttrs(span)), Leaves(rest), Nest(plain.groups, record));
  }

  lemma Splice(own: seq<Node>, extra: seq<Node>, rest: seq<Node>, nested: seq<Node>)
    ensures var plain := (own + rest) + nested;
            ((own + extra) + rest) + nested == plain[..|own|] + extra + plain[|own|..]
  {
  }

  /** Without a span nothing is added; with one, the record is two attributes longer, and
      these are the trace id under its key and then the span id under its own. */
  lemma TracedRecord(base: Handler, span: Option<Span>, ops: seq<Op>, record: seq<Attr>)
    requires base.groups == []
    ensures var plain := Emit(Derived(base, ops), record);
            var traced := Emit(Derived(WithAttrs(base, TraceAttrs(span)), ops), record);
            var n := |base.root|;
            && (span.None? ==> traced == plain)
            && (span.Some? ==>
                  && |traced| == |plain| + 2 && n + 2 <= |traced|
                  && traced[n] == Leaf(Attr("trace_id", span.value.traceId))
                  && traced[n + 1] == Leaf(Attr("span_id", span.value.spanId)))
  {
    hide Emit, Derived, WithAttrs, Leaves;
    TraceAttrsAreAtTheRoot(base, span, ops, record);
    var plain := Emit(Derived(base, ops), record);
    if span.None? {
      NoLeaves();
      Unspliced(plain, |base.root|);
    } else {
      TwoLeaves(Attr(TRACE_ID, span.value.traceId), Attr(SPAN_ID, span.value.spanId));
      SplicedPair(plain, |base.root|, Leaf(Attr(TRACE_ID, span.value.traceId)), Leaf(Attr(SPAN_ID, span.value.spanId)));
    }
  }

  lemma NoLeaves()
    ensures Leaves([]) == []
  {
  }

  lemma TwoLeaves(a: Attr, b: Attr)
    ensures Leaves([a, b]) == [Leaf(a), Leaf(b)]
  {
    assert |Leaves([a, b])| == 2;
  }

  lemma Unspliced(plain: seq<Node>, n: nat)
    requires n <= |plain|
    ensures plain[..n] + [] + plain[n..] == plain
  {
  }

  lemma SplicedPair(plain: seq<Node>, n: nat, a: Node, b: Node)
    requires n <= |plain|
    ensures var traced := plain[..n] + [a, b] + plain[n..];
            |traced| == |plain| + 2 && traced[n] == a && traced[n + 1] == b
  {
  }

  /** When the base already has a group open, the trace attributes are in that
      group: the root is the base's own, span or no span. */
  lemma GroupedBaseKeepsItsRoot(base: Handler, span: Option<Span>, ops: seq<Op>)
    requires base.groups != []
    ensures Derived(WithAttrs(base, TraceAttrs(span)), ops).root == Derived(base, ops).root == base.root
  {
    AttrsStayPut(base, TraceAttrs(span), ops);
    RootOfGrouped(base, ops);
  }

  /** Exactly when the trace attributes of a valid span come out at the root: if and only
      if the base has no group open. */
  lemma AtTheRootIff(base: Handler, span: Span, ops: seq<Op>, record: seq<Attr>)
    ensures var plain := Emit(Derived(base, ops), record);
            var traced := Emit(Derived(WithAttrs(base, TraceAttrs(Some(span))), ops), record);
            && |base.root| <= |plain|
            && (traced == plain[..|base.root|] + Leaves(TraceAttrs(Some(span))) + plain[|base.root|..] <==> base.groups == [])
  {
    if base.groups == [] {
      TraceAttrsAreAtTheRoot(base, Some(span), ops, record);
    } else {
      GroupedLength(base, ops, record);
      GroupedLength(WithAttrs(base, TraceAttrs(Some(span))), ops, record);
    }
  }

  /** Over a base with a group open everything else is in one group. */
  lemma GroupedLength(base: Handler, ops: seq<Op>, record: seq<Attr>)
    requires base.groups != []
    ensures |Emit(Derived(base, ops), record)| == |base.root| + 1
  {
    hide Derived, Leaves;
    RootOfGrouped(base, ops);
  }

  lemma {:induction false} RootOfGrouped(h: Handler, ops: seq<Op>)
    requires h.groups != []
    ensures Derived(h, ops).root == h.root && Derived(h, ops).groups != []
  {
    if ops != [] {
      RootOfGrouped(h, ops[..|ops| - 1]);
    }
  }

  /** Derivations: step `k` derives handler `k + 1` from an earlier one. */
  type Family = seq<(nat, Op)>

  predicate WellFounded(steps: Family)
  {
    forall k :: 0 <= k < |steps| ==> steps[k].0 <= k
  }

  /** The operations on the way from the first handler to handler `i`. */
  function Path(steps: Family, i: nat): seq<Op>
    requires WellFounded(steps) && i <= |steps|
    decreases i
  {
    if i == 0 then [] else Path(steps, steps[i - 1].0) + [steps[i - 1].1]
  }

  /** Handler `i` replays the operations on its way from a handler with `ops`. */
  ghost predicate Replays(h: Tracer, base: Handler, ops: seq<Op>, steps: Family, i: nat)
    requires WellFounded(steps) && i <= |steps|
    reads h.ops
  {
    h.base == base && h.ops[..] == ops + Path(steps, i)
  }

  lemma PathStep(ops: seq<Op>, steps: Family, k: nat)
    requires WellFounded(steps) && k < |steps|
    ensures (ops + Path(steps, steps[k].0)) + [steps[k].1] == ops + Path(steps, k + 1)
  {
  }

  /** Any family of handlers derived from one another in any order: each replays the
      operations on its own way from the first handler and no others, none shares its
      array with another, and the first one is as it was. */
  method DeriveFamily(first: Tracer, steps: Family) returns (family: seq<Tracer>)
    requires WellFounded(steps)
    ensures |family| == |steps| + 1 && family[0] == first
    ensures forall i :: 0 <= i < |family| ==> Replays(family[i], first.base, old(first.ops[..]), steps, i)
    ensures forall i, j :: 0 <= i < j < |family| ==> family[i].ops != family[j].ops
  {
    family := [first];
    var ops := first.ops[..];
    assert ops + Path(steps, 0) == ops;
    for k := 0 to |steps|
      invariant |family| == k + 1 && family[0] == first
      invariant forall i :: 0 <= i < |family| ==> Replays(family[i], first.base, ops, steps, i)
      invariant forall i, j :: 0 <= i < j < |family| ==> family[i].ops != family[j].ops
    {
      hide Path;
      var (from, op) := steps[k];
      assert Replays(family[from], first.base, ops, steps, from);
      var h := family[from].With(op);
      PathStep(ops, steps, k);
      assert Replays(h, first.base, ops, steps, k + 1);
      hide Replays;
      family := family + [h];
    }
  }
}
