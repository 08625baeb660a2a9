/**
 * What `read`, `login` and `write` do, as functions of the address check,
 * the wallet and the way each awaited call settles: the requests issued,
 * the notifications queued, the results published, whether the in-flight
 * flag is left set, and how the callback's promise settles. The `Page`
 * session methods are proved to do exactly this.
 */
module Dispatch {
  import opened Options
  import opened JsValues
  import opened Chains
  import opened Errors
  import opened Wallet

  /** A `setResult` call: a read's decoded value, or a write's transaction with its receipt once awaited. */
  datatype Published = ReadResult(data: JsValue) | WriteResult(tx: nat, waitResult: Option<JsValue>)

  /** How `callWeb3Function` settles for a write: a submitted transaction, or a rejection. */
  datatype Submission = Submitted(tx: nat) | SubmitRejects(reason: JsValue)

  datatype DispatchEffects = DispatchEffects(
    requests: seq<Request>,
    notifications: seq<Notification>,
    published: seq<Published>,
    stillBusy: bool,
    outcome: Completion<()>)

  function ChainIdOf(chain: Option<Chain>): Option<nat> {
    if chain.Some? then Some(chain.value.chainId) else None
  }

  function InvalidAddress(address: JsValue): JsValue {
    ErrorObject("Invalid address " + ToJsString(address))
  }

  const UnexpectedError := ErrorObject("Unexpected Error")

  /** The success notifications of `read`, `login` and `write`, and the prompt `write` shows a read-only wallet. */
  const Queried := Notification(Str("Data queried successfully"), Success)
  const LoggedIn := Notification(Str("Logged in successfully"), Success)
  const DataSent := Notification(Str("Data sent successfully"), Success)
  const LoginFirst := Str("Please login first")

  /** The `catch` of a dispatch callback: clear the flag and report the error. */
  function Caught(tried: DispatchEffects): (r: DispatchEffects)
    requires tried.outcome.Throw?
    ensures r.requests == tried.requests && r.published == tried.published && !r.stillBusy
    ensures r.notifications == tried.notifications + Reported(tried.outcome.exception).0
    ensures r.outcome == Reported(tried.outcome.exception).1
  {
    var report := Reported(tried.outcome.exception);
    DispatchEffects(tried.requests, tried.notifications + report.0, tried.published, false, report.1)
  }

  function Settle(tried: DispatchEffects): DispatchEffects {
    if tried.outcome.Throw? then Caught(tried) else tried
  }

  /** The switch `read` starts with: none when the wallet is already on the selected chain. */
  function SwitchPrefix(w: WalletState, selected: Option<Chain>, switchReply: Reply, addReply: Reply): Effects {
    if w.chainId == ChainIdOf(selected) then Effects([], [], Normal(()))
    else SwitchEffects(selected, w, switchReply, addReply)
  }

  /** The notifications of a switch prefix that settled, with the "Switched into" warning after an actual switch. */
  function Warned(w: WalletState, selected: Option<Chain>, switched: Effects): seq<Notification>
    requires w.chainId != ChainIdOf(selected) ==> selected.Some?
  {
    switched.notifications +
      (if w.chainId != ChainIdOf(selected) then [Notification(Str("Switched into " + selected.value.name), Warning)] else [])
  }

  /** The `try` block of `read`: a thrown outcome means control went to `catch`. */
  function ReadTry(addressValid: bool, address: JsValue, w: WalletState, selected: Option<Chain>,
                   switchReply: Reply, addReply: Reply, call: Reply): DispatchEffects
  {
    if !addressValid then DispatchEffects([], [], [], false, Throw(InvalidAddress(address)))
    else ReadOnChain(w, selected, switchReply, addReply, call)
  }

  /** The `try` block of `read` past the address check: switch when needed, then call. */
  function ReadOnChain(w: WalletState, selected: Option<Chain>, switchReply: Reply, addReply: Reply,
                       call: Reply): DispatchEffects
  {
    var switched := SwitchPrefix(w, selected, switchReply, addReply);
    if switched.outcome.Throw? then DispatchEffects(switched.requests, switched.notifications, [], false, switched.outcome)
    else if w.chainId != ChainIdOf(selected) && selected.None? then
      DispatchEffects(switched.requests, switched.notifications, [], false, Throw(TypeError))
    else
      var warned := Warned(w, selected, switched);
      var called := switched.requests + [CallFunction(ReadCall)];
      match call
      case Rejects(e) => DispatchEffects(called, warned, [], true, Throw(e))
      case Resolves(v) =>
        DispatchEffects(called, warned + [Queried], [ReadResult(v)], false, Normal(()))
  }

  /** `read()`. */
  function ReadEffects(addressValid: bool, address: JsValue, w: WalletState, selected: Option<Chain>,
                       switchReply: Reply, addReply: Reply, call: Reply): (r: DispatchEffects)
    // the flag is cleared on every path
    ensures !r.stillBusy
    // an invalid address aborts before any request, with exactly one error notification
    ensures !addressValid ==>
              r == DispatchEffects([], [Notification(Str("Invalid address " + ToJsString(address)), Error)], [], false, Normal(()))
    // the contract is only called after the address check passed, and at most once
    ensures CallFunction(ReadCall) in r.requests ==> addressValid
    ensures |r.published| <= 1
    ensures r.published != [] ==> call.Resolves? && r.published == [ReadResult(call.value)] && CallFunction(ReadCall) in r.requests
    // on a chain other than the selected one, the switch comes first
    ensures addressValid && w.chainId != ChainIdOf(selected) ==>
              var s := SwitchEffects(selected, w, switchReply, addReply);
              |s.requests| <= |r.requests| && r.requests[..|s.requests|] == s.requests
    // the happy path on the selected chain
    ensures addressValid && w.chainId == ChainIdOf(selected) && call.Resolves? ==>
              r == DispatchEffects([CallFunction(ReadCall)], [Queried],
                                   [ReadResult(call.value)], false, Normal(()))
    // a failed switch is reported after the switch's own effects, and nothing is called
    ensures addressValid && SwitchPrefix(w, selected, switchReply, addReply).outcome.Throw? ==>
              var s := SwitchPrefix(w, selected, switchReply, addReply);
              var report := Reported(s.outcome.exception);
              r == DispatchEffects(s.requests, s.notifications + report.0, [], false, report.1)
    // a switch that settles without a selected chain fails reading its name, reported as a TypeError
    ensures && addressValid && SwitchPrefix(w, selected, switchReply, addReply).outcome.Normal?
            && w.chainId != ChainIdOf(selected) && selected.None? ==>
              var s := SwitchPrefix(w, selected, switchReply, addReply);
              r == DispatchEffects(s.requests, s.notifications + [Notification(Str("TypeError"), Error)], [], false, Normal(()))
    // once on the selected chain: the call, then its result published, or its rejection reported
    ensures && addressValid && SwitchPrefix(w, selected, switchReply, addReply).outcome.Normal?
            && (w.chainId != ChainIdOf(selected) ==> selected.Some?) ==>
              var s := SwitchPrefix(w, selected, switchReply, addReply);
              var warned := Warned(w, selected, s);
              && r.requests == s.requests + [CallFunction(ReadCall)]
              && (call.Resolves? ==>
                    r.notifications == warned + [Queried] && r.published == [ReadResult(call.value)] && r.outcome == Normal(()))
              && (call.Rejects? ==>
                    r.notifications == warned + Reported(call.reason).0 && r.published == [] && r.outcome == Reported(call.reason).1)
    // only reporting a rejection with no value can make the callback itself reject
    ensures r.outcome.Throw? ==> r.outcome.exception == TypeError
  {
    ErrorObjectReportsItsText("Invalid address " + ToJsString(address));
    ErrorObjectReportsItsText("TypeError");
    var tried := ReadTry(addressValid, address, w, selected, switchReply, addReply, call);
    assert addressValid ==> tried == ReadOnChain(w, selected, switchReply, addReply, call);
    Settle(tried)
  }

  /** The connector `login` activates: the injected one when a global `ethereum` exists. */
  function LoginConnector(w: WalletState): Connector {
    if w.hasInjectedProvider then InjectedConnector else WalletConnectConnector
  }

  /** `login()`, where activation settles as `activation`. */
  function LoginEffects(w: WalletState, activation: Reply): (r: DispatchEffects)
    ensures r.requests == [Activate(LoginConnector(w))] && r.published == [] && !r.stillBusy
    ensures activation.Resolves? ==> r.notifications == [LoggedIn] && r.outcome == Normal(())
    ensures activation.Rejects? ==> r.notifications == Reported(activation.reason).0 && r.outcome == Reported(activation.reason).1
  {
    var tried := match activation
      case Resolves(_) => DispatchEffects([Activate(LoginConnector(w))], [LoggedIn], [], false, Normal(()))
      case Rejects(e) => DispatchEffects([Activate(LoginConnector(w))], [], [], true, Throw(e));
    Settle(tried)
  }

  /** The read-only connector's branch of `write`: prompt a login, then log in. */
  function LoginPrompted(w: WalletState, activation: Reply): DispatchEffects {
    var prompt := Reported(LoginFirst).0;
    var login := LoginEffects(w, activation);
    if login.outcome.Normal? then
      DispatchEffects(login.requests, prompt + login.notifications, [], true, Normal(()))
    else
      var report := Reported(login.outcome.exception);
      DispatchEffects(login.requests, prompt + login.notifications + report.0, [], false, report.1)
  }

  /** The executor's branch of `write`: send, publish, await the receipt, publish again. */
  function Sent(submission: Submission, receipt: Reply): DispatchEffects {
    match submission
    case SubmitRejects(e) => DispatchEffects([CallFunction(WriteCall)], [], [], true, Throw(e))
    case Submitted(tx) =>
      var sent := [DataSent];
      var issued := [CallFunction(WriteCall), WaitForReceipt(tx)];
      match receipt
      case Rejects(e) => DispatchEffects(issued, sent, [WriteResult(tx, None)], true, Throw(e))
      case Resolves(mined) =>
        DispatchEffects(issued, sent, [WriteResult(tx, None), WriteResult(tx, Some(mined))], false, Normal(()))
  }

  /** The `try` block of `write`. */
  function WriteTry(addressValid: bool, address: JsValue, w: WalletState, contract: Reply,
                    activation: Reply, submission: Submission, receipt: Reply): DispatchEffects
  {
    if !addressValid then DispatchEffects([], [], [], false, Throw(InvalidAddress(address)))
    else if !w.hasLibrary then DispatchEffects([], [], [], false, Throw(UnexpectedError))
    else SignedWrite(w, contract, activation, submission, receipt)
  }

  /** The `try` block of `write` once the flag is set: build the contract, then log in or send. */
  function SignedWrite(w: WalletState, contract: Reply, activation: Reply, submission: Submission,
                       receipt: Reply): DispatchEffects
  {
    if contract.Rejects? then DispatchEffects([], [], [], true, Throw(contract.reason))
    else if w.connector == NetworkConnector then LoginPrompted(w, activation)
    else Sent(submission, receipt)
  }

  /** `write()`. */
  function WriteEffects(addressValid: bool, address: JsValue, w: WalletState, contract: Reply,
                        activation: Reply, submission: Submission, receipt: Reply): (r: DispatchEffects)
    // an invalid address aborts before any request, with exactly one error notification
    ensures !addressValid ==>
              r == DispatchEffects([], [Notification(Str("Invalid address " + ToJsString(address)), Error)], [], false, Normal(()))
    // the read-only connector never reaches the executor: it prompts a login instead
    ensures w.connector == NetworkConnector ==> CallFunction(WriteCall) !in r.requests && r.published == []
    ensures w.connector == NetworkConnector && addressValid && w.hasLibrary && contract.Resolves? ==>
              && r.requests == [Activate(LoginConnector(w))]
              && |r.notifications| >= 1 && r.notifications[0] == Notification(LoginFirst, Error)
    // no provider library: one "Unexpected Error" notification, nothing issued
    ensures addressValid && !w.hasLibrary ==>
              r == DispatchEffects([], [Notification(Str("Unexpected Error"), Error)], [], false, Normal(()))
    // building the signer-bound contract fails: reported, nothing issued
    ensures addressValid && w.hasLibrary && contract.Rejects? ==>
              r == DispatchEffects([], Reported(contract.reason).0, [], false, Reported(contract.reason).1)
    // a login that settles leaves the writing flag set
    ensures w.connector == NetworkConnector && addressValid && w.hasLibrary && contract.Resolves? && activation.Resolves? ==>
              r.stillBusy && r.outcome == Normal(())
    // a rejected activation is reported by `login`, which then settles too, so the flag stays set;
    // only when reporting it throws is the flag cleared and a TypeError reported
    ensures && w.connector == NetworkConnector && addressValid && w.hasLibrary && contract.Resolves?
            && activation.Rejects? && !IsNullish(activation.reason) ==>
              && r.notifications == [Notification(LoginFirst, Error), Notification(ErrorMessage(activation.reason).value, Error)]
              && r.stillBusy && r.outcome == Normal(())
    ensures && w.connector == NetworkConnector && addressValid && w.hasLibrary && contract.Resolves?
            && activation.Rejects? && IsNullish(activation.reason) ==>
              && r.notifications == [Notification(LoginFirst, Error), Notification(Str("TypeError"), Error)]
              && !r.stillBusy && r.outcome == Normal(())
    // a rejected submission is reported, with nothing published
    ensures && addressValid && w.hasLibrary && contract.Resolves? && w.connector != NetworkConnector
            && submission.SubmitRejects? ==>
              r == DispatchEffects([CallFunction(WriteCall)], Reported(submission.reason).0, [], false, Reported(submission.reason).1)
    // the flag survives only on the login path
    ensures r.stillBusy ==> w.connector == NetworkConnector && r.outcome.Normal?
    // a mined write publishes its result twice: once submitted, once with the receipt
    ensures && addressValid && w.hasLibrary && contract.Resolves? && w.connector != NetworkConnector
            && submission.Submitted? && receipt.Resolves? ==>
              r == DispatchEffects([CallFunction(WriteCall), WaitForReceipt(submission.tx)],
                                   [DataSent],
                                   [WriteResult(submission.tx, None), WriteResult(submission.tx, Some(receipt.value))],
                                   false, Normal(()))
    // a failed wait still leaves the submitted result published once, and is reported
    ensures && addressValid && w.hasLibrary && contract.Resolves? && w.connector != NetworkConnector
            && submission.Submitted? && receipt.Rejects? ==>
              r == DispatchEffects([CallFunction(WriteCall), WaitForReceipt(submission.tx)],
                                   [DataSent] + Reported(receipt.reason).0,
                                   [WriteResult(submission.tx, None)], false, Reported(receipt.reason).1)
    ensures CallFunction(WriteCall) in r.requests ==> addressValid && w.hasLibrary && w.connector != NetworkConnector
    ensures r.outcome.Throw? ==> r.outcome.exception == TypeError
  {
    ErrorObjectReportsItsText("Invalid address " + ToJsString(address));
    ErrorObjectReportsItsText("Unexpected Error");
    ErrorObjectReportsItsText("TypeError");
    var prompt := Reported(LoginFirst);
    assert prompt.0 == [Notification(LoginFirst, Error)];
    Settle(WriteTry(addressValid, address, w, contract, activation, submission, receipt))
  }
}
