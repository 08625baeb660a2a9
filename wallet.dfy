/**
 * The wallet collaborator as the page sees it, the requests the page issues
 * to it (and to the contract-call executor), and the network-switch decision
 * tree of `switchW3Chain`.
 */
module Wallet {
  import opened Options
  import opened JsValues
  import opened Chains
  import opened Errors

  /** The connectors the page compares against: the read-only `network` one, the browser's `injected` one, and the rest. */
  datatype Connector = NetworkConnector | InjectedConnector | WalletConnectConnector | NoConnector

  /** A snapshot of `w3React` plus whether a global `ethereum` provider exists. */
  datatype WalletState = WalletState(
    active: bool,
    chainId: Option<nat>,
    connector: Connector,
    hasLibrary: bool,
    hasInjectedProvider: bool)

  /** `w3React.chainId` as a truthy value: present and not 0. */
  predicate ReportsChain(w: WalletState) {
    w.chainId.Some? && w.chainId.value != 0
  }

  /** How an awaited external call settled. */
  datatype Reply = Resolves(value: JsValue) | Rejects(reason: JsValue)

  datatype CallKind = ReadCall | WriteCall

  /** A request the page issues to the wallet or to the contract-call executor. */
  datatype Request =
    | ChangeChainId(id: nat)                        // NetworkConnector.changeChainId
    | SwitchEthereumChain(chainId: string)          // EIP-3326 wallet_switchEthereumChain
    | AddEthereumChain(chainId: string, chainName: string, nativeCurrency: Currency, rpcUrls: seq<string>)  // EIP-3085
    | Activate(connector: Connector)                // w3React.activate
    | CallFunction(kind: CallKind)                  // callWeb3Function
    | WaitForReceipt(tx: nat)                       // writeResult.wait()

  /** What a callback did: the requests it issued, the notifications it queued, and how its promise settled. */
  datatype Effects = Effects(requests: seq<Request>, notifications: seq<Notification>, outcome: Completion<()>)

  const SwitchUnknownChain := 4902

  function UnableToSwitch(chain: Chain): JsValue {
    ErrorObject("Unable to switch into " + chain.name)
  }

  function NotSupported(chain: Chain): JsValue {
    ErrorObject("Chain " + chain.name + " is not supported for now...")
  }

  function AddRequest(chain: Chain): Request {
    AddEthereumChain(ChainIdHex(chain.chainId), chain.name, chain.nativeCurrency, chain.rpc)
  }

  /** `showError(error)` inside the add-network `catch`. */
  function ReportEffects(requests: seq<Request>, error: JsValue): Effects {
    Effects(requests, Reported(error).0, Reported(error).1)
  }

  /**
   * `switchW3Chain(chain)` with the wallet in state `w`, where the switch
   * request settles as `switchReply` and the add request as `addReply`.
   * `chain` is `None` when the caller passes a null chain.
   */
  function SwitchEffects(chain: Option<Chain>, w: WalletState, switchReply: Reply, addReply: Reply): (e: Effects)
    // the read-only connector only changes its own chain id
    ensures w.connector == NetworkConnector && chain.Some? ==>
              e == Effects([ChangeChainId(chain.value.chainId)], [], Normal(()))
    // any other connector besides the injected one: nothing happens
    ensures w.connector !in {NetworkConnector, InjectedConnector} ==> e == Effects([], [], Normal(()))
    // no browser wallet: fail before any request
    ensures w.connector == InjectedConnector && chain.Some? && !w.hasInjectedProvider ==>
              e == Effects([], [], Throw(UnableToSwitch(chain.value)))
    // a null chain fails with a TypeError on both the network and injected paths
    ensures w.connector in {NetworkConnector, InjectedConnector} && chain.None? ==>
              e == Effects([], [], Throw(TypeError))
    // the injected path always starts with the switch request for the hex id
    ensures w.connector == InjectedConnector && chain.Some? && w.hasInjectedProvider ==>
              |e.requests| >= 1 && e.requests[0] == SwitchEthereumChain(ChainIdHex(chain.value.chainId))
    // wallet RPCs are only ever issued on the injected path with a provider
    ensures (exists i :: 0 <= i < |e.requests| && (e.requests[i].SwitchEthereumChain? || e.requests[i].AddEthereumChain?)) ==>
              w.connector == InjectedConnector && w.hasInjectedProvider
    // an add request follows the switch request, carries the chain, and only after code 4902 with RPC URLs
    ensures forall i :: 0 <= i < |e.requests| && e.requests[i].AddEthereumChain? ==>
              && i == 1 && chain.Some? && |chain.value.rpc| > 0
              && e.requests[i] == AddRequest(chain.value)
              && switchReply.Rejects?
              && Prop(switchReply.reason, "code") == Normal(Num(SwitchUnknownChain))
    // an accepted switch: exactly the switch request, and done
    ensures && w.connector == InjectedConnector && chain.Some? && w.hasInjectedProvider && switchReply.Resolves? ==>
              e == Effects([SwitchEthereumChain(ChainIdHex(chain.value.chainId))], [], Normal(()))
    // 4902 for a chain with RPC URLs: the chain is added; a rejected add is reported through `showError`
    ensures && w.connector == InjectedConnector && chain.Some? && w.hasInjectedProvider
            && switchReply.Rejects? && Prop(switchReply.reason, "code") == Normal(Num(SwitchUnknownChain))
            && |chain.value.rpc| > 0 ==>
              && e.requests == [SwitchEthereumChain(ChainIdHex(chain.value.chainId)), AddRequest(chain.value)]
              && (addReply.Resolves? ==> e.notifications == [] && e.outcome == Normal(()))
              && (addReply.Rejects? ==> e.notifications == Reported(addReply.reason).0 && e.outcome == Reported(addReply.reason).1)
    // 4902 for a chain without RPC URLs: reported as not supported, no add request
    ensures && w.connector == InjectedConnector && chain.Some? && w.hasInjectedProvider
            && switchReply.Rejects? && Prop(switchReply.reason, "code") == Normal(Num(SwitchUnknownChain))
            && chain.value.rpc == [] ==>
              && e.requests == [SwitchEthereumChain(ChainIdHex(chain.value.chainId))]
              && e.notifications == [Notification(Str("Chain " + chain.value.name + " is not supported for now..."), Error)]
              && e.outcome == Normal(())
    // any other rejection is rethrown unchanged, without retry or notification
    ensures && w.connector == InjectedConnector && chain.Some? && w.hasInjectedProvider
            && switchReply.Rejects? && Prop(switchReply.reason, "code").Normal?
            && Prop(switchReply.reason, "code") != Normal(Num(SwitchUnknownChain)) ==>
              e == Effects([SwitchEthereumChain(ChainIdHex(chain.value.chainId))], [], Throw(switchReply.reason))
    ensures |e.requests| <= 2 && |e.notifications| <= 1
  {
    match w.connector
    case NetworkConnector() =>
      if chain.None? then Effects([], [], Throw(TypeError))
      else Effects([ChangeChainId(chain.value.chainId)], [], Normal(()))
    case InjectedConnector() =>
      if chain.None? then Effects([], [], Throw(TypeError))
      else if !w.hasInjectedProvider then Effects([], [], Throw(UnableToSwitch(chain.value)))
      else
        var c := chain.value;
        var switched := [SwitchEthereumChain(ChainIdHex(c.chainId))];
        (match switchReply
         case Resolves(_) => Effects(switched, [], Normal(()))
         case Rejects(error) =>
           match Prop(error, "code")
           case Throw(t) => Effects(switched, [], Throw(t))
           case Normal(code) =>
             if code != Num(SwitchUnknownChain) then Effects(switched, [], Throw(error))
             else if |c.rpc| > 0 then
               match addReply
               case Resolves(_) => Effects(switched + [AddRequest(c)], [], Normal(()))
               case Rejects(addError) => ReportEffects(switched + [AddRequest(c)], addError)
             else
               ErrorObjectReportsItsText("Chain " + c.name + " is not supported for now...");
               ReportEffects(switched, NotSupported(c)))
    case _ => Effects([], [], Normal(()))
  }
}
