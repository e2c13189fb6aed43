/** The part of Go's `context.Context` that carries the active transaction:
    a chain of derived contexts, looked up from the newest layer outwards. */
module Contexts {
  import opened Common

  type TxId = nat

  /** `txKey` is unexported, so only `TxManager` writes a `TxLayer`; user code
      layers values under its own keys and deadlines on top. */
  datatype Layer = TxLayer(tx: TxId) | UserValue(key: int, value: int) | Deadline(at: int)

  datatype Context = Background | Derived(parent: Context, layer: Layer)

  /** `ctx.Value(txKey{})`: the nearest transaction layer. */
  function TxFromContext(ctx: Context): (t: Option<TxId>)
  {
    match ctx
    case Background => None
    case Derived(_, TxLayer(tx)) => Some(tx)
    case Derived(parent, _) => TxFromContext(parent)
  }

  /** The context obtained from `ctx` by applying `layers` in order. */
  function Derive(ctx: Context, layers: seq<Layer>): Context
  {
    if layers == [] then ctx else Derived(Derive(ctx, layers[..|layers| - 1]), layers[|layers| - 1])
  }

  /** The querier `TxManager.QuerierFromContext` hands out. */
  datatype Querier = OnTx(tx: TxId) | Gated | Direct

  function QuerierFromContext(ctx: Context, providerReadyable: bool): (q: Querier)
  {
    match TxFromContext(ctx)
    case Some(tx) => OnTx(tx)
    case None => if providerReadyable then Gated else Direct
  }

  /** Whatever else is layered around it, a context resolves to the transaction
      layered on last. */
  lemma {:induction false} ResolvesToInnermost(ctx: Context, layers: seq<Layer>, i: nat, readyable: bool)
    requires i < |layers| && layers[i].TxLayer?
    requires forall j :: i < j < |layers| ==> !layers[j].TxLayer?
    ensures QuerierFromContext(Derive(ctx, layers), readyable) == OnTx(layers[i].tx)
  {
    if i < |layers| - 1 {
      ResolvesToInnermost(ctx, layers[..|layers| - 1], i, readyable);
    }
  }

  /** Layers that are not transactions never change what a context resolves to. */
  lemma {:induction false} OtherLayersAreTransparent(ctx: Context, layers: seq<Layer>, readyable: bool)
    requires forall j :: 0 <= j < |layers| ==> !layers[j].TxLayer?
    ensures QuerierFromContext(Derive(ctx, layers), readyable) == QuerierFromContext(ctx, readyable)
  {
    if layers != [] {
      OtherLayersAreTransparent(ctx, layers[..|layers| - 1], readyable);
    }
  }

  /** A context without a transaction resolves to the provider, through the readiness
      gate exactly when the provider is Readyable. */
  lemma NoTxResolvesToProvider(layers: seq<Layer>, readyable: bool)
    requires forall j :: 0 <= j < |layers| ==> !layers[j].TxLayer?
    ensures QuerierFromContext(Derive(Background, layers), readyable) == if readyable then Gated else Direct
  {
    OtherLayersAreTransparent(Background, layers, readyable);
  }
}
