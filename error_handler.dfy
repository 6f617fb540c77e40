/** The `ErrorHandler` error class: its constructor normalises the message to a
    string and the status code to a non-zero number, 500 by default. */
module ErrorHandler {
  import opened Common
  import opened Js
  import opened Text

  datatype AppError = AppError(message: string, statusCode: int)

  /** The message: a string is kept, any other value goes through `String`. */
  function MessageText(message: Option<Json>): string
  {
    if message.Some? && message.value.JStr? then message.value.s else ToText(message)
  }

  /** The status code: `Number(statusCode) || 500`, with 500 also the
      parameter default when it is omitted. */
  function StatusCodeOf(statusCode: Option<Json>): (c: int)
    ensures c != 0
  {
    NumberOr(if statusCode.None? then Some(JNum(500)) else statusCode, 500)
  }

  /** `new ErrorHandler(message, statusCode)`; an omitted status code is `None`. */
  function NewErrorHandler(message: Option<Json>, statusCode: Option<Json>): (e: AppError)
    ensures e.statusCode != 0
  {
    AppError(MessageText(message), StatusCodeOf(statusCode))
  }

  /** The usual call: a string message and a literal status code. */
  function Raise(message: string, statusCode: int): AppError
  {
    NewErrorHandler(Some(JStr(message)), Some(JNum(statusCode)))
  }

  /** A string message is kept as it is; any other value goes through `String`. */
  lemma MessageNormalised(message: Option<Json>, statusCode: Option<Json>)
    ensures message.Some? && message.value.JStr? ==>
      NewErrorHandler(message, statusCode).message == message.value.s
    ensures message == None ==> NewErrorHandler(message, statusCode).message == "undefined"
    ensures message == Some(JNum(404)) ==> NewErrorHandler(message, statusCode).message == "404"
  {
    if message == Some(JNum(404)) {
      assert NatToString(404) == NatToString(40) + ['4'];
      assert NatToString(40) == NatToString(4) + ['0'];
    }
  }

  /** Any status code whose `Number` is a non-zero n, whether a number or text
      such as the decimal text of n, becomes n. */
  lemma StatusFromNumber(message: Option<Json>, statusCode: Json, n: int)
    requires n != 0 && ToNumber(Some(statusCode)) == Finite(n)
    ensures NewErrorHandler(message, Some(statusCode)).statusCode == n
  {
  }

  /** A status code sent as text is read as a number: '404' becomes 404. */
  lemma StatusFromText(message: Option<Json>)
    ensures NewErrorHandler(message, Some(JStr("404"))).statusCode == 404
  {
    assert AllDigits("404");
    assert "404"[..2] == "40" && "40"[..1] == "4" && "4"[..0] == "";
    assert DecimalValue("404") == 404;
    DigitsRead("404", 404);
    NumberOfString("404");
  }

  /** A missing, zero or non-numeric status code becomes 500. */
  lemma StatusDefaults(message: Option<Json>, statusCode: Option<Json>)
    ensures statusCode == None ==> NewErrorHandler(message, statusCode).statusCode == 500
    ensures statusCode == Some(JNum(0)) ==> NewErrorHandler(message, statusCode).statusCode == 500
    ensures statusCode == Some(JNull) ==> NewErrorHandler(message, statusCode).statusCode == 500
    ensures ToNumber(statusCode).NaN? ==> NewErrorHandler(message, statusCode).statusCode == 500
  {
  }
}
