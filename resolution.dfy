/**
 * How the three chain-selection signals change the selected chain: the
 * wallet's active chain, the route's `network` parameter, and the address
 * hint of a loaded artifact. Each is a step on `selectedChain`; replayed in
 * any order, they end in the same selection.
 */
module Resolution {
  import opened Options
  import opened Numerals
  import opened JsValues
  import opened Chains
  import opened Wallet
  import opened Abi
  import opened Query

  /** What the signals read: the registry, the loaded artifact, the route query and the wallet. */
  datatype Inputs = Inputs(registry: seq<Chain>, json: JsValue, query: RouteQuery, wallet: WalletState)

  datatype Signal = WalletReport | RouteNetwork | ArtifactHint

  /** The wallet's chain when it is active and known to the registry. */
  function WalletChain(registry: seq<Chain>, w: WalletState): (r: Option<Chain>)
    ensures r.Some? ==> w.active && w.chainId == Some(r.value.chainId) && r.value in registry
    ensures r.None? <==> !w.active || w.chainId.None? || forall c | c in registry :: c.chainId != w.chainId.value
  {
    if w.active && w.chainId.Some? then FindById(registry, w.chainId.value) else None
  }

  /** The chain named by a truthy `network` parameter, if the registry knows it. */
  function RouteChain(registry: seq<Chain>, q: RouteQuery): (r: Option<Chain>)
    ensures r.Some? ==> Param(q, "network") == Some(Decimal(r.value.chainId)) && r.value in registry
    ensures r.None? <==> Param(q, "network").None? || forall c | c in registry :: Decimal(c.chainId) != Param(q, "network").value
  {
    match Param(q, "network")
    case Some(network) => FindByKey(registry, network)
    case None => None
  }

  /**
   * The first `networks` entry with an address, as the artifact effect
   * reaches it: only when the artifact is truthy, the wallet active, and
   * normalisation did not throw.
   */
  function HintEntry(json: JsValue, w: WalletState): Option<(string, JsValue)> {
    if Truthy(json) && w.active && Normalise(json).Normal? then
      var networks := Prop(json, "networks").value;
      if Truthy(networks) then
        match FirstHint(networks, ForInKeys(networks))
        case Normal(Some(hint)) => Some(hint)
        case _ => None
      else None
    else None
  }

  /** The chain the artifact hint selects: only without a `network` parameter. */
  function HintChain(registry: seq<Chain>, json: JsValue, q: RouteQuery, w: WalletState): (r: Option<Chain>)
    ensures r.Some? ==> && Param(q, "network").None? && r.value in registry
                        && HintEntry(json, w).Some? && Decimal(r.value.chainId) == HintEntry(json, w).value.0
    ensures r.None? <==> || Param(q, "network").Some? || HintEntry(json, w).None?
                         || forall c | c in registry :: Decimal(c.chainId) != HintEntry(json, w).value.0
  {
    match HintEntry(json, w)
    case Some(hint) => if Param(q, "network").None? then FindByKey(registry, hint.0) else None
    case None => None
  }

  function OrElse(a: Option<Chain>, b: Option<Chain>): Option<Chain> {
    if a.Some? then a else b
  }

  /** `selectedChain` after one signal is handled. */
  function Step(env: Inputs, signal: Signal, selected: Option<Chain>): (r: Option<Chain>)
    // the wallet only fills an empty selection, with its own chain when the registry knows it
    ensures signal == WalletReport && selected.Some? ==> r == selected
    ensures signal == WalletReport && selected.None? ==> r == WalletChain(env.registry, env.wallet)
    // a known route parameter always wins; an unknown or absent one changes nothing
    ensures signal == RouteNetwork && RouteChain(env.registry, env.query).Some? ==> r == RouteChain(env.registry, env.query)
    ensures signal == RouteNetwork && RouteChain(env.registry, env.query).None? ==> r == selected
    // the artifact hint overrides whatever was selected; no usable hint changes nothing
    ensures signal == ArtifactHint && HintChain(env.registry, env.json, env.query, env.wallet).Some? ==>
              r == HintChain(env.registry, env.json, env.query, env.wallet)
    ensures signal == ArtifactHint && HintChain(env.registry, env.json, env.query, env.wallet).None? ==> r == selected
    // an unknown or absent chain selects nothing
    ensures r != selected ==> r.Some? && r.value in env.registry
  {
    match signal
    case WalletReport => if selected.None? then WalletChain(env.registry, env.wallet) else selected
    case RouteNetwork => OrElse(RouteChain(env.registry, env.query), selected)
    case ArtifactHint => OrElse(HintChain(env.registry, env.json, env.query, env.wallet), selected)
  }

  /** `selectedChain` after the signals are handled in the order given. */
  function Replay(env: Inputs, signals: seq<Signal>, selected: Option<Chain>): Option<Chain> {
    if signals == [] then selected
    else Step(env, signals[|signals| - 1], Replay(env, signals[..|signals| - 1], selected))
  }

  /** The selection once the signals in `seen` have been handled, whatever their order. */
  function Settled(env: Inputs, selected: Option<Chain>, seen: set<Signal>): Option<Chain> {
    var route := if RouteNetwork in seen then RouteChain(env.registry, env.query) else None;
    var hint := if ArtifactHint in seen then HintChain(env.registry, env.json, env.query, env.wallet) else None;
    var base := if WalletReport in seen then Step(env, WalletReport, selected) else selected;
    OrElse(route, OrElse(hint, base))
  }

  /** Handling one more signal moves the settled selection to the one for the larger set. */
  lemma SettledStep(env: Inputs, selected: Option<Chain>, seen: set<Signal>, signal: Signal)
    ensures Step(env, signal, Settled(env, selected, seen)) == Settled(env, selected, seen + {signal})
  {
    var route := RouteChain(env.registry, env.query);
    var hint := HintChain(env.registry, env.json, env.query, env.wallet);
    var before := Settled(env, selected, seen);
    var after := seen + {signal};
    match signal
    case WalletReport =>
      assert RouteNetwork in after <==> RouteNetwork in seen;
      assert ArtifactHint in after <==> ArtifactHint in seen;
      assert Step(env, WalletReport, before) == (if before.None? then WalletChain(env.registry, env.wallet) else before);
    case RouteNetwork =>
      assert ArtifactHint in after <==> ArtifactHint in seen;
      assert WalletReport in after <==> WalletReport in seen;
      assert Step(env, RouteNetwork, before) == OrElse(route, before);
    case ArtifactHint =>
      assert RouteNetwork in after <==> RouteNetwork in seen;
      assert WalletReport in after <==> WalletReport in seen;
      assert Step(env, ArtifactHint, before) == OrElse(hint, before);
  }

  /** Replaying any sequence of signals ends where the set of signals seen says. */
  lemma {:induction false} ReplaySettles(env: Inputs, signals: seq<Signal>, selected: Option<Chain>)
    ensures Replay(env, signals, selected) == Settled(env, selected, set s | s in signals)
  {
    if signals != [] {
      var prefix := signals[..|signals| - 1];
      var last := signals[|signals| - 1];
      var seen := set s | s in prefix;
      assert Replay(env, signals, selected) == Step(env, last, Replay(env, prefix, selected));
      ReplaySettles(env, prefix, selected);
      SettledStep(env, selected, seen, last);
      assert signals == prefix + [last];
      assert (set s | s in signals) == seen + {last};
    } else {
      assert (set s | s in signals) == {};
    }
  }

  /**
   * Chain resolution is order independent: two replays that handle the same
   * signals, in any order and any number of times, select the same chain.
   */
  lemma OrderIndependent(env: Inputs, first: seq<Signal>, second: seq<Signal>, selected: Option<Chain>)
    requires forall s :: s in first <==> s in second
    ensures Replay(env, first, selected) == Replay(env, second, selected)
  {
    ReplaySettles(env, first, selected);
    ReplaySettles(env, second, selected);
    assert (set s | s in first) == (set s | s in second);
  }

  /** With all three signals handled: route parameter, then artifact hint, then the wallet's chain. */
  lemma AllSignalsPrecedence(env: Inputs, signals: seq<Signal>, selected: Option<Chain>)
    requires WalletReport in signals && RouteNetwork in signals && ArtifactHint in signals
    ensures var r := Replay(env, signals, selected);
      && (RouteChain(env.registry, env.query).Some? ==> r == RouteChain(env.registry, env.query))
      && (RouteChain(env.registry, env.query).None? && HintChain(env.registry, env.json, env.query, env.wallet).Some? ==>
            r == HintChain(env.registry, env.json, env.query, env.wallet))
      && (RouteChain(env.registry, env.query).None? && HintChain(env.registry, env.json, env.query, env.wallet).None? ==>
            r == (if selected.Some? then selected else WalletChain(env.registry, env.wallet)))
  {
    ReplaySettles(env, signals, selected);
    var seen := set s | s in signals;
    assert WalletReport in seen && RouteNetwork in seen && ArtifactHint in seen;
  }

  /** Handling a signal again changes nothing. */
  lemma ReplayAgain(env: Inputs, signals: seq<Signal>, signal: Signal, selected: Option<Chain>)
    requires signal in signals
    ensures Replay(env, signals + [signal], selected) == Replay(env, signals, selected)
  {
    OrderIndependent(env, signals + [signal], signals, selected);
  }
}
