/**
 * `showError`: the message a caught error is reported with, and the
 * notification it queues.
 */
module Errors {
  import opened JsValues

  datatype Severity = Success | Warning | Error

  /** One snackbar notification. The message is whatever value was selected; it is usually a string. */
  datatype Notification = Notification(message: JsValue, severity: Severity)

  /** `error.data.message` when that is truthy (a provider's nested message). */
  function DataMessage(error: JsValue): JsValue
    requires !IsNullish(error)
  {
    var data := Prop(error, "data").value;
    if Truthy(data) then Prop(data, "message").value else Undefined
  }

  /**
   * The message `showError` reports: the nested provider message, else the
   * error's own `message`, else the error value itself. Reading `data` of
   * `null` or `undefined` throws.
   */
  function ErrorMessage(error: JsValue): (r: Completion<JsValue>)
    ensures r.Throw? <==> IsNullish(error)
    ensures r.Throw? ==> r.exception == TypeError
    ensures r.Normal? && Truthy(DataMessage(error)) ==> r.value == DataMessage(error)
    ensures r.Normal? && !Truthy(DataMessage(error)) && Truthy(Prop(error, "message").value) ==>
              r.value == Prop(error, "message").value
    ensures r.Normal? && !Truthy(DataMessage(error)) && !Truthy(Prop(error, "message").value) ==>
              r.value == error
    ensures r.Normal? ==> Truthy(r.value) || r.value == error
    ensures error.Str? ==> r == Normal(error)
  {
    match Prop(error, "data")
    case Throw(t) => Throw(t)
    case Normal(data) =>
      if Truthy(data) && Truthy(Prop(data, "message").value) then Normal(Prop(data, "message").value)
      else if Truthy(Prop(error, "message").value) then Normal(Prop(error, "message").value)
      else Normal(error)
  }

  /** An `Error` built with a non-empty text is reported with that text. */
  lemma ErrorObjectReportsItsText(m: string)
    requires m != ""
    ensures ErrorMessage(ErrorObject(m)) == Normal(Str(m))
  {
    assert "message" != "data" by { assert "message"[0] != "data"[0]; }
    var props := [("message", Str(m))];
    assert props[1..] == [];
    assert Lookup(props, "data") == Undefined;
    assert Lookup(props, "message") == Str(m);
  }

  /** What one `showError(error)` call adds: exactly one error notification, unless selecting the message throws. */
  function Reported(error: JsValue): (r: (seq<Notification>, Completion<()>))
    ensures r.1.Normal? <==> !IsNullish(error)
    ensures r.1.Normal? ==> r.0 == [Notification(ErrorMessage(error).value, Error)]
    ensures r.1.Throw? ==> r.0 == [] && r.1.exception == TypeError
  {
    match ErrorMessage(error)
    case Normal(m) => ([Notification(m, Error)], Normal(()))
    case Throw(t) => ([], Throw(t))
  }
}
