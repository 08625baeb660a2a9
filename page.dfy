/**
 * The page's session state and the effects and callbacks that update it:
 * query seeding, chain/address resolution, ABI normalisation, network
 * switching, `showError`, `read`, `login` and `write`.
 *
 * Each method is one effect body or callback run to completion, with the
 * wallet snapshot and the way every awaited call settles as parameters.
 * Requests to the wallet and the contract executor, notifications and
 * published results are appended to logs; a `setTimeout` switch is queued
 * in `pendingSwitches` and run by `FirePendingSwitch`.
 */
module Page {
  import opened Options
  import opened Numerals
  import opened JsValues
  import opened Chains
  import opened Errors
  import opened Wallet
  import opened Abi
  import opened Query
  import opened Resolution
  import opened Dispatch

  /** `!address || address === '0x'`: the address may still be filled in by a hint. */
  predicate AddressIsUnset(address: JsValue) {
    !Truthy(address) || address == Str("0x")
  }

  /** `contractIsReady`: `address && address.length === 42`. */
  function ContractIsReady(address: JsValue): (r: bool)
    ensures address.Str? ==> (r <==> |address.s| == 42)
    ensures r ==> address.Str? || address.Arr? || address.Obj?
  {
    Truthy(address) && Prop(address, "length") == Normal(Num(42))
  }

  /** The address the selected chain's `networks` entry supplies, if its entry is truthy. */
  function ChainAddress(json: JsValue, chain: Chain): Option<JsValue> {
    if Truthy(json) then
      var networks := Prop(json, "networks").value;
      if Truthy(networks) then
        var entry := Prop(networks, Decimal(chain.chainId)).value;
        if Truthy(entry) then Some(Prop(entry, "address").value) else None
      else None
    else None
  }

  /** Whether selecting `chain` schedules a switch: the wallet is active, reports a chain, and it differs. */
  predicate NeedsSwitch(w: WalletState, chain: Chain) {
    w.active && ReportsChain(w) && w.chainId.value != chain.chainId
  }

  function ScheduledFor(chain: Option<Chain>, w: WalletState): seq<Chain> {
    if chain.Some? && NeedsSwitch(w, chain.value) then [chain.value] else []
  }

  /** The normaliser's branches, with the collecting loops of `CollectFunctions`. */
  method NormaliseLoaded(json: JsValue) returns (c: Completion<Normalised>)
    requires Truthy(json)
    ensures c == Normalise(json)
  {
    var abiField := Prop(json, "abi").value;
    var source: JsValue;
    if Truthy(abiField) {
      source := abiField;
    } else if (json.Arr? || json.Obj?) && IsPositive(Prop(json, "length").value) {
      var kind := Prop(Prop(json, "0").value, "type");
      if kind.Throw? {
        return Throw(kind.exception);
      }
      if !Truthy(kind.value) {
        return Normal(Empty);
      }
      source := json;
    } else {
      return Normal(Empty);
    }
    var entries := ForOfValues(source);
    if entries.Throw? {
      return Throw(entries.exception);
    }
    var collected := CollectFunctions(entries.value);
    if collected.Throw? {
      return Throw(collected.exception);
    }
    return Normal(Normalised(collected.value, source));
  }

  predicate OnlyFunctions(functions: seq<JsValue>) {
    forall f | f in functions :: IsFunctionEntry(f)
  }

  predicate Registered(chains: seq<Chain>, registry: seq<Chain>) {
    forall c | c in chains :: c in registry
  }

  /** The resolved part of the session. */
  datatype Selection = Selection(
    url: string,
    json: JsValue,
    functions: seq<JsValue>,
    abi: JsValue,
    selectedChain: Option<Chain>,
    address: JsValue,
    selectedFunction: Option<JsValue>,
    args: map<string, string>,
    pendingSwitches: seq<Chain>)

  /** The dispatch part of the session: in-flight flags and the logs. */
  datatype Activity = Activity(
    isReading: bool,
    isWriting: bool,
    isLoggingIn: bool,
    resultDialogOpen: bool,
    results: seq<Published>,
    notifications: seq<Notification>,
    requests: seq<Request>)

  class Session {
    const registry: seq<Chain>
    var url: string
    var json: JsValue
    var functions: seq<JsValue>
    var abi: JsValue
    var selectedChain: Option<Chain>
    var address: JsValue
    var selectedFunction: Option<JsValue>
    var args: map<string, string>
    var pendingSwitches: seq<Chain>
    var isReading: bool
    var isWriting: bool
    var isLoggingIn: bool
    var resultDialogOpen: bool
    var results: seq<Published>
    var notifications: seq<Notification>
    var requests: seq<Request>

    /** Only function entries are offered, and every chain selected or scheduled comes from the registry. */
    ghost predicate Valid()
      reads this
    {
      && OnlyFunctions(functions)
      && (selectedChain.Some? ==> selectedChain.value in registry)
      && Registered(pendingSwitches, registry)
    }

    ghost function SelectionState(): Selection
      reads this
    {
      Selection(url, json, functions, abi, selectedChain, address, selectedFunction, args, pendingSwitches)
    }

    ghost function ActivityState(): Activity
      reads this
    {
      Activity(isReading, isWriting, isLoggingIn, resultDialogOpen, results, notifications, requests)
    }

    /** The state on first render. */
    constructor(registry: seq<Chain>)
      ensures Valid() && this.registry == registry
      ensures SelectionState() == Selection("", Obj([]), [], Arr([]), None, Str("0x"), None, map[], [])
      ensures ActivityState() == Activity(false, false, false, false, [], [], [])
    {
      this.registry := registry;
      url, json, functions, abi := "", Obj([]), [], Arr([]);
      selectedChain, address, selectedFunction, args, pendingSwitches := None, Str("0x"), None, map[], [];
      isReading, isWriting, isLoggingIn, resultDialogOpen := false, false, false, false;
      results, notifications, requests := [], [], [];
    }

    /** The `json` parameter becomes the artifact URL to load. */
    method ApplyJsonParam(q: RouteQuery)
      requires Valid()
      modifies this
      ensures Valid() && ActivityState() == old(ActivityState())
      ensures SelectionState() == old(SelectionState()).(url := if Param(q, "json").Some? then Param(q, "json").value else old(url))
    {
      var param := Param(q, "json");
      if param.Some? {
        url := param.value;
      }
    }

    /** The `address` parameter becomes the contract address. */
    method ApplyAddressParam(q: RouteQuery)
      requires Valid()
      modifies this
      ensures Valid() && ActivityState() == old(ActivityState())
      ensures SelectionState() == old(SelectionState()).(address := if Param(q, "address").Some? then Str(Param(q, "address").value) else old(address))
    {
      var param := Param(q, "address");
      if param.Some? {
        address := Str(param.value);
      }
    }

    /** Every `args.<name>` query key with a non-empty name seeds argument `name`; the rest are untouched. */
    method SeedArgs(q: RouteQuery)
      requires Valid()
      modifies this
      ensures Valid() && ActivityState() == old(ActivityState())
      ensures SelectionState() == old(SelectionState()).(args := args)
      ensures args == SeededUpTo(old(args), q, |q|)
    {
      var i := 0;
      while i < |q|
        invariant 0 <= i <= |q|
        invariant args == SeededUpTo(old(args), q, i)
        invariant SelectionState() == old(SelectionState()).(args := args)
        invariant ActivityState() == old(ActivityState())
      {
        var key := q[i].0;
        if |key| >= |ArgsPrefix| && key[..|ArgsPrefix|] == ArgsPrefix {
          var argKey := key[|ArgsPrefix|..];
          if |argKey| > 0 {
            var value := QueryGet(q, key);
            assert value.Some?;
            args := args[argKey := value.value];
          }
        }
        i := i + 1;
      }
    }

    /** A loaded artifact (from the URL, a file, or the editor) replaces the current one. */
    method LoadJson(loaded: JsValue)
      requires Valid()
      modifies this
      ensures Valid() && ActivityState() == old(ActivityState())
      ensures SelectionState() == old(SelectionState()).(json := loaded)
    {
      json := loaded;
    }

    /** An active wallet's chain is selected when nothing is selected yet and the registry knows it. */
    method OnWalletState(w: WalletState)
      requires Valid()
      modifies this
      ensures Valid() && ActivityState() == old(ActivityState())
      ensures SelectionState() == old(SelectionState()).(selectedChain := selectedChain)
      ensures selectedChain == Step(Inputs(registry, json, [], w), WalletReport, old(selectedChain))
    {
      if w.active {
        if selectedChain.None? && w.chainId.Some? {
          var chain := FindById(registry, w.chainId.value);
          if chain.Some? {
            selectedChain := chain;
          }
        }
      }
    }

    /** A known `network` parameter is selected, and a switch is scheduled when the wallet is elsewhere. */
    method OnRouteNetwork(q: RouteQuery, w: WalletState)
      requires Valid()
      modifies this
      ensures Valid() && ActivityState() == old(ActivityState())
      ensures SelectionState() == old(SelectionState()).(selectedChain := selectedChain, pendingSwitches := pendingSwitches)
      ensures selectedChain == Step(Inputs(registry, json, q, w), RouteNetwork, old(selectedChain))
      ensures pendingSwitches == old(pendingSwitches) + ScheduledFor(RouteChain(registry, q), w)
    {
      var network := Param(q, "network");
      if network.Some? {
        var chain := FindByKey(registry, network.value);
        SelectAndSchedule(chain, w);
      }
    }

    /** `showError`: queue the selected message as one error notification. */
    method ShowError(error: JsValue) returns (c: Completion<()>)
      requires Valid()
      modifies this
      ensures Valid() && SelectionState() == old(SelectionState())
      ensures ActivityState() == old(ActivityState()).(notifications := old(notifications) + Reported(error).0)
      ensures c == Reported(error).1
    {
      var message := ErrorMessage(error);
      if message.Throw? {
        return Throw(message.exception);
      }
      notifications := notifications + [Notification(message.value, Error)];
      return Normal(());
    }

    /** `switchW3Chain(chain)`. */
    method SwitchW3Chain(chain: Option<Chain>, w: WalletState, switchReply: Reply, addReply: Reply) returns (c: Completion<()>)
      requires Valid()
      modifies this
      ensures Valid() && SelectionState() == old(SelectionState())
      ensures var e := SwitchEffects(chain, w, switchReply, addReply);
        && ActivityState() == old(ActivityState()).(requests := old(requests) + e.requests,
                                                    notifications := old(notifications) + e.notifications)
        && c == e.outcome
    {
      ghost var e := SwitchEffects(chain, w, switchReply, addReply);
      if w.connector == NetworkConnector {
        if chain.None? {
          return Throw(TypeError);
        }
        requests := requests + [ChangeChainId(chain.value.chainId)];
        return Normal(());
      } else if w.connector == InjectedConnector {
        if chain.None? {
          return Throw(TypeError);
        }
        var target := chain.value;
        if !w.hasInjectedProvider {
          return Throw(UnableToSwitch(target));
        }
        var chainId := ChainIdHex(target.chainId);
        requests := requests + [SwitchEthereumChain(chainId)];
        if switchReply.Resolves? {
          return Normal(());
        }
        var error := switchReply.reason;
        var code := Prop(error, "code");
        if code.Throw? {
          assert e == Effects([SwitchEthereumChain(chainId)], [], Throw(code.exception));
          return Throw(code.exception);
        }
        if code.value != Num(SwitchUnknownChain) {
          assert e == Effects([SwitchEthereumChain(chainId)], [], Throw(error));
          return Throw(error);
        }
        var addError;
        if |target.rpc| > 0 {
          requests := requests + [AddRequest(target)];
          if addReply.Resolves? {
            assert e == Effects([SwitchEthereumChain(chainId), AddRequest(target)], [], Normal(()));
            return Normal(());
          }
          addError := addReply.reason;
          assert e == ReportEffects([SwitchEthereumChain(chainId), AddRequest(target)], addError);
        } else {
          addError := NotSupported(target);
          assert e == ReportEffects([SwitchEthereumChain(chainId)], addError);
        }
        c := ShowError(addError);
      } else {
        return Normal(());
      }
    }

    /**
     * The artifact effect, run while the wallet is active: normalise the
     * loaded value, then take the first `networks` entry with an address as a
     * hint. Its chain is selected only without a `network` parameter (even
     * over a chain already selected); its address is written only over an
     * unset address.
     */
    method ApplyArtifact(q: RouteQuery, w: WalletState) returns (c: Completion<()>)
      requires Valid()
      modifies this
      ensures Valid() && ActivityState() == old(ActivityState())
      ensures !(Truthy(json) && w.active) ==> SelectionState() == old(SelectionState()) && c == Normal(())
      ensures Truthy(json) && w.active && Normalise(json).Throw? ==>
                SelectionState() == old(SelectionState()) && c == Throw(TypeError)
      ensures Truthy(json) && w.active && Normalise(json).Normal? ==>
                var n := Normalise(json).value;
                var hint := HintEntry(json, w);
                && SelectionState() == old(SelectionState()).(
                     functions := n.functions,
                     abi := n.abi,
                     selectedChain := Step(Inputs(registry, json, q, w), ArtifactHint, old(selectedChain)),
                     address := if hint.Some? && AddressIsUnset(old(address)) then hint.value.1 else old(address),
                     pendingSwitches := old(pendingSwitches) + ScheduledFor(HintChain(registry, json, q, w), w))
      ensures c.Throw? ==> c == Throw(TypeError)
      ensures HintEntry(json, w).Some? ==> c == Normal(())
      // after normalising, the effect fails only when the `networks` loop reaches a `null` entry
      ensures Truthy(json) && w.active && Normalise(json).Normal? ==>
                var networks := Prop(json, "networks").value;
                (c.Throw? <==> Truthy(networks) && FirstHint(networks, ForInKeys(networks)).Throw?)
    {
      if !(Truthy(json) && w.active) {
        return Normal(());
      }
      var normalised := NormaliseLoaded(json);
      if normalised.Throw? {
        return Throw(normalised.exception);
      }
      functions := normalised.value.functions;
      abi := normalised.value.abi;
      var networks := Prop(json, "networks").value;
      ghost var hint := HintChain(registry, json, q, w);
      assert Step(Inputs(registry, json, q, w), ArtifactHint, old(selectedChain)) == OrElse(hint, old(selectedChain));
      if !Truthy(networks) {
        assert HintEntry(json, w) == None && hint == None;
        return Normal(());
      }
      ghost var found := FirstHint(networks, ForInKeys(networks));
      assert found.Normal? ==> HintEntry(json, w) == found.value;
      assert found.Normal? ==>
        hint == if found.value.Some? && Param(q, "network").None? then FindByKey(registry, found.value.value.0) else None;
      c := ApplyNetworkHint(q, w, networks);
    }

    /** The `networks` loop of the artifact effect, over a truthy `networks` value. */
    method ApplyNetworkHint(q: RouteQuery, w: WalletState, networks: JsValue) returns (c: Completion<()>)
      requires Valid() && Truthy(networks)
      modifies this
      ensures Valid() && ActivityState() == old(ActivityState())
      ensures var found := FirstHint(networks, ForInKeys(networks));
        && (found.Throw? ==> SelectionState() == old(SelectionState()) && c == Throw(TypeError))
        && (found.Normal? ==>
              var chain := if found.value.Some? && Param(q, "network").None? then FindByKey(registry, found.value.value.0) else None;
              && c == Normal(())
              && SelectionState() == old(SelectionState()).(
                   selectedChain := OrElse(chain, old(selectedChain)),
                   address := if found.value.Some? && AddressIsUnset(old(address)) then found.value.value.1 else old(address),
                   pendingSwitches := old(pendingSwitches) + ScheduledFor(chain, w)))
    {
      var hint := FindHint(networks);
      if hint.Throw? {
        return Throw(hint.exception);
      }
      var chain: Option<Chain> := None;
      if hint.value.Some? && Param(q, "network").None? {
        chain := FindByKey(registry, hint.value.value.0);
      }
      SelectAndSchedule(chain, w);
      if hint.value.Some? && AddressIsUnset(address) {
        address := hint.value.value.1;
      }
      return Normal(());
    }

    /**
     * `selectChain(chain)` for a chain found in the registry, followed by a
     * `setTimeout` switch when the active wallet reports a different chain.
     */
    method SelectAndSchedule(chain: Option<Chain>, w: WalletState)
      requires Valid() && (chain.Some? ==> chain.value in registry)
      modifies this
      ensures Valid() && ActivityState() == old(ActivityState())
      ensures SelectionState() == old(SelectionState()).(selectedChain := OrElse(chain, old(selectedChain)),
                                                         pendingSwitches := old(pendingSwitches) + ScheduledFor(chain, w))
    {
      if chain.Some? {
        selectedChain := chain;
        if w.active && w.chainId.Some? && w.chainId.value != 0 && w.chainId.value != chain.value.chainId {
          pendingSwitches := pendingSwitches + [chain.value];
        }
      }
    }

    /** The selected chain's own `networks` entry fills an unset address (never throws). */
    method ApplyChainAddress()
      requires Valid()
      modifies this
      ensures Valid() && ActivityState() == old(ActivityState())
      ensures SelectionState() == old(SelectionState()).(address :=
                if selectedChain.Some? && ChainAddress(json, selectedChain.value).Some? && AddressIsUnset(old(address))
                then ChainAddress(json, selectedChain.value).value else old(address))
    {
      if selectedChain.Some? && Truthy(json) {
        var networks := Prop(json, "networks").value;
        if Truthy(networks) {
          var entry := Prop(networks, Decimal(selectedChain.value.chainId)).value;
          if Truthy(entry) {
            if AddressIsUnset(address) {
              address := Prop(entry, "address").value;
            }
          }
        }
      }
    }

    /** A `func` parameter selects the first function of that name, once functions are loaded. */
    method SelectFunctionFromQuery(q: RouteQuery)
      requires Valid()
      modifies this
      ensures Valid() && ActivityState() == old(ActivityState())
      ensures SelectionState() == old(SelectionState()).(selectedFunction := selectedFunction)
      ensures Param(q, "func").Some? && FindFunction(functions, Param(q, "func").value).Some? ==>
                selectedFunction == FindFunction(functions, Param(q, "func").value)
      ensures !(Param(q, "func").Some? && FindFunction(functions, Param(q, "func").value).Some?) ==>
                selectedFunction == old(selectedFunction)
      ensures selectedFunction != old(selectedFunction) ==> selectedFunction.value in functions
    {
      var name := Param(q, "func");
      if name.Some? && |functions| > 0 {
        var found := FindFunction(functions, name.value);
        if found.Some? {
          selectedFunction := found;
        }
      }
    }

    /**
     * `read()`: check the address, switch the wallet to the selected chain
     * when it is elsewhere, call the function, publish the decoded result.
     * `isAddress` is the address checksum test; `call` is how construction
     * and the call itself settle.
     */
    method Read(isAddress: JsValue -> bool, w: WalletState, switchReply: Reply, addReply: Reply, call: Reply)
      returns (c: Completion<()>)
      requires Valid()
      modifies this
      ensures Valid() && SelectionState() == old(SelectionState())
      ensures var e := ReadEffects(isAddress(address), address, w, selectedChain, switchReply, addReply, call);
        && ActivityState() == old(ActivityState()).(
             isReading := e.stillBusy,
             resultDialogOpen := old(resultDialogOpen) || e.published != [],
             results := old(results) + e.published,
             notifications := old(notifications) + e.notifications,
             requests := old(requests) + e.requests)
        && c == e.outcome
    {
      ghost var t := ReadTry(isAddress(address), address, w, selectedChain, switchReply, addReply, call);
      var tried := ReadAttempt(isAddress, w, switchReply, addReply, call);
      if tried.Throw? {
        isReading := false;
        c := ShowError(tried.exception);
      } else {
        c := Normal(());
      }
    }

    /** The `try` block of `read()`; the flag is left to the caller when it throws. */
    method ReadAttempt(isAddress: JsValue -> bool, w: WalletState, switchReply: Reply, addReply: Reply, call: Reply)
      returns (c: Completion<()>)
      requires Valid()
      modifies this
      ensures Valid() && SelectionState() == old(SelectionState())
      ensures var t := ReadTry(isAddress(address), address, w, selectedChain, switchReply, addReply, call);
        && ActivityState().(isReading := false) == old(ActivityState()).(
             isReading := false,
             resultDialogOpen := old(resultDialogOpen) || t.published != [],
             results := old(results) + t.published,
             notifications := old(notifications) + t.notifications,
             requests := old(requests) + t.requests)
        && (c.Normal? ==> !isReading)
        && c == t.outcome
    {
      ghost var t := ReadTry(isAddress(address), address, w, selectedChain, switchReply, addReply, call);
      if !isAddress(address) {
        assert t == DispatchEffects([], [], [], false, Throw(InvalidAddress(address)));
        return Throw(InvalidAddress(address));
      }
      assert t == ReadOnChain(w, selectedChain, switchReply, addReply, call);
      c := ReadOnSelectedChain(w, switchReply, addReply, call);
    }

    /** `read()` past the address check: switch to the selected chain when needed, then call. */
    method ReadOnSelectedChain(w: WalletState, switchReply: Reply, addReply: Reply, call: Reply)
      returns (c: Completion<()>)
      requires Valid()
      modifies this
      ensures Valid() && SelectionState() == old(SelectionState())
      ensures var t := ReadOnChain(w, selectedChain, switchReply, addReply, call);
        && ActivityState().(isReading := false) == old(ActivityState()).(
             isReading := false,
             resultDialogOpen := old(resultDialogOpen) || t.published != [],
             results := old(results) + t.published,
             notifications := old(notifications) + t.notifications,
             requests := old(requests) + t.requests)
        && (c.Normal? ==> !isReading)
        && c == t.outcome
    {
      ghost var t := ReadOnChain(w, selectedChain, switchReply, addReply, call);
      ghost var s := SwitchPrefix(w, selectedChain, switchReply, addReply);
      var switched := SwitchToSelected(w, switchReply, addReply);
      if switched.Throw? {
        assert t == DispatchEffects(s.requests, s.notifications, [], false, switched);
        return switched;
      }
      ghost var warned := Warned(w, selectedChain, s);
      match call {
        case Rejects(reason) =>
          assert t == DispatchEffects(s.requests + [CallFunction(ReadCall)], warned, [], true, Throw(reason));
        case Resolves(data) =>
          assert t == DispatchEffects(s.requests + [CallFunction(ReadCall)],
                                      warned + [Queried],
                                      [ReadResult(data)], false, Normal(()));
      }
      ghost var issued := requests;
      ghost var told := notifications;
      assert issued == old(requests) + s.requests;
      assert told == old(notifications) + warned;
      c := CallAndPublish(call);
      assert issued + [CallFunction(ReadCall)] == old(requests) + (s.requests + [CallFunction(ReadCall)]);
      assert told + [Queried] == old(notifications) + (warned + [Queried]);
    }

    /** The second step of `read()`: call the function and publish what it returns. */
    method CallAndPublish(call: Reply) returns (c: Completion<()>)
      requires Valid()
      modifies this
      ensures Valid() && SelectionState() == old(SelectionState())
      ensures match call
        case Rejects(reason) =>
          && ActivityState() == old(ActivityState()).(isReading := true, requests := old(requests) + [CallFunction(ReadCall)])
          && c == Throw(reason)
        case Resolves(data) =>
          && ActivityState() == old(ActivityState()).(
               isReading := false,
               resultDialogOpen := true,
               results := old(results) + [ReadResult(data)],
               notifications := old(notifications) + [Queried],
               requests := old(requests) + [CallFunction(ReadCall)])
          && c == Normal(())
    {
      isReading := true;
      requests := requests + [CallFunction(ReadCall)];
      match call {
        case Rejects(reason) =>
          return Throw(reason);
        case Resolves(data) =>
          results := results + [ReadResult(data)];
          resultDialogOpen := true;
          notifications := notifications + [Queried];
          isReading := false;
          return Normal(());
      }
    }

    /**
     * The first step of `read()`: when the wallet is on another chain than
     * the selected one, switch it and announce the switch.
     */
    method SwitchToSelected(w: WalletState, switchReply: Reply, addReply: Reply) returns (c: Completion<()>)
      requires Valid()
      modifies this
      ensures Valid() && SelectionState() == old(SelectionState())
      // on the selected chain already, nothing happens; otherwise the switch runs and, when it
      // settles with a chain selected, "Switched into <name>" follows
      ensures var s := SwitchPrefix(w, selectedChain, switchReply, addReply);
        && c == (if s.outcome.Throw? then s.outcome
                 else if w.chainId != ChainIdOf(selectedChain) && selectedChain.None? then Throw(TypeError)
                 else Normal(()))
        && ActivityState() == old(ActivityState()).(
             requests := old(requests) + s.requests,
             notifications := old(notifications) + if c.Throw? then s.notifications else Warned(w, selectedChain, s))
    {
      if w.chainId == ChainIdOf(selectedChain) {
        return Normal(());
      }
      c := SwitchW3Chain(selectedChain, w, switchReply, addReply);
      if c.Throw? {
        return;
      }
      if selectedChain.None? {
        return Throw(TypeError);
      }
      notifications := notifications + [Notification(Str("Switched into " + selectedChain.value.name), Warning)];
    }

    /** `login()`: activate the injected wallet if there is one, else WalletConnect. */
    method Login(w: WalletState, activation: Reply) returns (c: Completion<()>)
      requires Valid()
      modifies this
      ensures Valid() && SelectionState() == old(SelectionState())
      ensures var e := LoginEffects(w, activation);
        && ActivityState() == old(ActivityState()).(
             isLoggingIn := e.stillBusy,
             notifications := old(notifications) + e.notifications,
             requests := old(requests) + e.requests)
        && c == e.outcome
    {
      isLoggingIn := true;
      if w.hasInjectedProvider {
        requests := requests + [Activate(InjectedConnector)];
      } else {
        requests := requests + [Activate(WalletConnectConnector)];
      }
      match activation {
        case Resolves(_) =>
          notifications := notifications + [LoggedIn];
          isLoggingIn := false;
          c := Normal(());
        case Rejects(reason) =>
          isLoggingIn := false;
          c := ShowError(reason);
      }
    }

    /**
     * `write()`: check the address and the provider, then either prompt a
     * login (read-only connector) or send the transaction, publish it, await
     * its receipt and publish it again. `contract` is how building the
     * signer-bound contract settles.
     */
    method Write(isAddress: JsValue -> bool, w: WalletState, contract: Reply, activation: Reply,
                 submission: Submission, receipt: Reply) returns (c: Completion<()>)
      requires Valid()
      modifies this
      ensures Valid() && SelectionState() == old(SelectionState())
      ensures var e := WriteEffects(isAddress(address), address, w, contract, activation, submission, receipt);
        && ActivityState() == old(ActivityState()).(
             isWriting := e.stillBusy,
             isLoggingIn := if Activate(LoginConnector(w)) in e.requests then false else old(isLoggingIn),
             resultDialogOpen := old(resultDialogOpen) || e.published != [],
             results := old(results) + e.published,
             notifications := old(notifications) + e.notifications,
             requests := old(requests) + e.requests)
        && c == e.outcome
    {
      ghost var t := WriteTry(isAddress(address), address, w, contract, activation, submission, receipt);
      ghost var e := WriteEffects(isAddress(address), address, w, contract, activation, submission, receipt);
      assert e == Settle(t);
      var tried := WriteAttempt(isAddress, w, contract, activation, submission, receipt);
      assert address == old(address);
      if tried.Throw? {
        assert e == Caught(t);
        ghost var report := Reported(tried.exception).0;
        isWriting := false;
        c := ShowError(tried.exception);
        assert old(notifications) + t.notifications + report == old(notifications) + (t.notifications + report);
      } else {
        assert e == t;
        c := Normal(());
      }
    }

    /** The `try` block of `write()`; the flag is left to the caller when it throws. */
    method WriteAttempt(isAddress: JsValue -> bool, w: WalletState, contract: Reply, activation: Reply,
                        submission: Submission, receipt: Reply) returns (c: Completion<()>)
      requires Valid()
      modifies this
      ensures Valid() && SelectionState() == old(SelectionState())
      ensures var t := WriteTry(isAddress(address), address, w, contract, activation, submission, receipt);
        && ActivityState().(isWriting := false) == old(ActivityState()).(
             isWriting := false,
             isLoggingIn := if Activate(LoginConnector(w)) in t.requests then false else old(isLoggingIn),
             resultDialogOpen := old(resultDialogOpen) || t.published != [],
             results := old(results) + t.published,
             notifications := old(notifications) + t.notifications,
             requests := old(requests) + t.requests)
        && (c.Normal? ==> isWriting == t.stillBusy)
        && c == t.outcome
    {
      ghost var t := WriteTry(isAddress(address), address, w, contract, activation, submission, receipt);
      if !isAddress(address) {
        assert t == DispatchEffects([], [], [], false, Throw(InvalidAddress(address)));
        return Throw(InvalidAddress(address));
      }
      if !w.hasLibrary {
        assert t == DispatchEffects([], [], [], false, Throw(UnexpectedError));
        return Throw(UnexpectedError);
      }
      isWriting := true;
      assert t == SignedWrite(w, contract, activation, submission, receipt);
      c := WriteSigned(w, contract, activation, submission, receipt);
    }

    /** `write()` once `isWriting` is set: build the contract, then prompt a login or send. */
    method WriteSigned(w: WalletState, contract: Reply, activation: Reply, submission: Submission, receipt: Reply)
      returns (c: Completion<()>)
      requires Valid() && isWriting
      modifies this
      ensures Valid() && SelectionState() == old(SelectionState())
      ensures var t := SignedWrite(w, contract, activation, submission, receipt);
        && ActivityState().(isWriting := false) == old(ActivityState()).(
             isWriting := false,
             isLoggingIn := if Activate(LoginConnector(w)) in t.requests then false else old(isLoggingIn),
             resultDialogOpen := old(resultDialogOpen) || t.published != [],
             results := old(results) + t.published,
             notifications := old(notifications) + t.notifications,
             requests := old(requests) + t.requests)
        && (c.Normal? ==> isWriting == t.stillBusy)
        && c == t.outcome
    {
      ghost var t := SignedWrite(w, contract, activation, submission, receipt);
      if contract.Rejects? {
        assert t == DispatchEffects([], [], [], true, Throw(contract.reason));
        return Throw(contract.reason);
      }
      if w.connector == NetworkConnector {
        assert t == LoginPrompted(w, activation);
        c := PromptLogin(w, activation);
      } else {
        assert t == Sent(submission, receipt);
        assert t.requests[0] == CallFunction(WriteCall) && (|t.requests| == 1 || t.requests[1].WaitForReceipt?);
        c := SendTransaction(submission, receipt);
      }
    }

    /** The read-only connector's branch of `write()`: ask for a login, then log in. */
    method PromptLogin(w: WalletState, activation: Reply) returns (c: Completion<()>)
      requires Valid() && isWriting
      modifies this
      ensures Valid() && SelectionState() == old(SelectionState())
      ensures var t := LoginPrompted(w, activation);
        && Activate(LoginConnector(w)) in t.requests
        && ActivityState() == old(ActivityState()).(
             isWriting := t.stillBusy,
             isLoggingIn := false,
             notifications := old(notifications) + t.notifications,
             requests := old(requests) + t.requests)
        && t.published == []
        && c == t.outcome
    {
      ghost var prompt := Reported(LoginFirst).0;
      ghost var login := LoginEffects(w, activation);
      var _ := ShowError(LoginFirst);
      ghost var told := notifications;
      var loggedIn := Login(w, activation);
      if loggedIn.Throw? {
        ghost var report := Reported(loggedIn.exception).0;
        isWriting := false;
        c := ShowError(loggedIn.exception);
        assert told + login.notifications + report == old(notifications) + (prompt + login.notifications + report);
      } else {
        c := Normal(());
        assert told + login.notifications == old(notifications) + (prompt + login.notifications);
      }
    }

    /** The executor's branch of `write()`: send, publish, await the receipt, publish again. */
    method SendTransaction(submission: Submission, receipt: Reply) returns (c: Completion<()>)
      requires Valid() && isWriting
      modifies this
      ensures Valid() && SelectionState() == old(SelectionState())
      ensures var t := Sent(submission, receipt);
        && ActivityState() == old(ActivityState()).(
             isWriting := t.stillBusy,
             resultDialogOpen := old(resultDialogOpen) || t.published != [],
             results := old(results) + t.published,
             notifications := old(notifications) + t.notifications,
             requests := old(requests) + t.requests)
        && c == t.outcome
    {
      ghost var t := Sent(submission, receipt);
      requests := requests + [CallFunction(WriteCall)];
      match submission {
        case SubmitRejects(reason) =>
          assert t == DispatchEffects([CallFunction(WriteCall)], [], [], true, Throw(reason));
          return Throw(reason);
        case Submitted(tx) =>
          notifications := notifications + [DataSent];
          results := results + [WriteResult(tx, None)];
          resultDialogOpen := true;
          match receipt {
            case Rejects(reason) =>
              assert t == DispatchEffects([CallFunction(WriteCall), WaitForReceipt(tx)],
                [DataSent], [WriteResult(tx, None)], true, Throw(reason));
            case Resolves(mined) =>
              assert t == DispatchEffects([CallFunction(WriteCall), WaitForReceipt(tx)],
                [DataSent],
                [WriteResult(tx, None), WriteResult(tx, Some(mined))], false, Normal(()));
          }
          c := AwaitReceipt(tx, receipt);
      }
    }

    /** The last step of `write()`: await the receipt of `tx` and publish it. */
    method AwaitReceipt(tx: nat, receipt: Reply) returns (c: Completion<()>)
      requires Valid() && isWriting
      modifies this
      ensures Valid() && SelectionState() == old(SelectionState())
      ensures match receipt
        case Rejects(reason) =>
          && ActivityState() == old(ActivityState()).(requests := old(requests) + [WaitForReceipt(tx)])
          && c == Throw(reason)
        case Resolves(mined) =>
          && ActivityState() == old(ActivityState()).(
               isWriting := false,
               resultDialogOpen := true,
               results := old(results) + [WriteResult(tx, Some(mined))],
               requests := old(requests) + [WaitForReceipt(tx)])
          && c == Normal(())
    {
      requests := requests + [WaitForReceipt(tx)];
      match receipt {
        case Rejects(reason) =>
          return Throw(reason);
        case Resolves(mined) =>
          results := results + [WriteResult(tx, Some(mined))];
          resultDialogOpen := true;
          isWriting := false;
          return Normal(());
      }
    }

    /** A `setTimeout` callback scheduled by a chain selection runs: switch to the oldest pending chain. */
    method FirePendingSwitch(w: WalletState, switchReply: Reply, addReply: Reply) returns (c: Completion<()>)
      requires Valid()
      modifies this
      ensures Valid()
      ensures old(pendingSwitches) == [] ==> SelectionState() == old(SelectionState()) && ActivityState() == old(ActivityState()) && c == Normal(())
      ensures old(pendingSwitches) != [] ==>
        var e := SwitchEffects(Some(old(pendingSwitches)[0]), w, switchReply, addReply);
        && SelectionState() == old(SelectionState()).(pendingSwitches := old(pendingSwitches)[1..])
        && ActivityState() == old(ActivityState()).(requests := old(requests) + e.requests,
                                                    notifications := old(notifications) + e.notifications)
        && c == e.outcome
    {
      if pendingSwitches == [] {
        return Normal(());
      }
      var chain := pendingSwitches[0];
      pendingSwitches := pendingSwitches[1..];
      c := SwitchW3Chain(Some(chain), w, switchReply, addReply);
    }
  }
}
