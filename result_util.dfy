/**
 * The API response envelope (src/utils/result.util.ts): a code, optional
 * data and a message, built by `successResult` and the two-way overloaded
 * `errorResult`.
 */
module ResultUtil {
  import opened Wrappers
  import opened Js

  /** ApiCode.Success */
  const SUCCESS: int := 0
  /** ApiCode.UnknownError */
  const UNKNOWN_ERROR: int := 10000

  const DEFAULT_SUCCESS_MESSAGE := "操作成功"
  const DEFAULT_ERROR_MESSAGE := "未知错误"

  /**
   * ApiResult: `data` None is `null`; the message is whatever value the
   * builder stored, which for errorResult need not be a string.
   */
  datatype ApiResult<T> = ApiResult(code: int, data: Option<T>, message: JsValue)

  /** successResult(data, message = '操作成功'). */
  function SuccessResult<T>(data: T, message: Option<string>): (r: ApiResult<T>)
    ensures r.code == SUCCESS && r.data == Some(data)
    ensures message.Some? ==> r.message == Str(message.value)
    ensures message.None? ==> r.message == Str(DEFAULT_SUCCESS_MESSAGE)
  {
    ApiResult(SUCCESS, Some(data), Str(if message.Some? then message.value else DEFAULT_SUCCESS_MESSAGE))
  }

  /**
   * errorResult(errorCodeOrMessage, messageOrCode?, data = null): a code
   * first, then an optional message; or a message first, then an optional
   * code. An absent second argument is `Undefined`.
   */
  function ErrorResult<T>(errorCodeOrMessage: JsValue, messageOrCode: JsValue, data: Option<T>): (r: ApiResult<T>)
    requires errorCodeOrMessage.Num? || errorCodeOrMessage.Str?
    ensures r.data == data
    ensures errorCodeOrMessage.Num? ==>
      && r.code == errorCodeOrMessage.n
      && (Truthy(messageOrCode) ==> r.message == messageOrCode)
      && (!Truthy(messageOrCode) ==> r.message == Str(DEFAULT_ERROR_MESSAGE))
    ensures errorCodeOrMessage.Str? ==>
      && r.message == errorCodeOrMessage
      && (messageOrCode.Num? ==> r.code == messageOrCode.n)
      && (!messageOrCode.Num? ==> r.code == UNKNOWN_ERROR)
  {
    if errorCodeOrMessage.Num? then
      ApiResult(errorCodeOrMessage.n, data, if Truthy(messageOrCode) then messageOrCode else Str(DEFAULT_ERROR_MESSAGE))
    else
      ApiResult(if messageOrCode.Num? then messageOrCode.n else UNKNOWN_ERROR, data, errorCodeOrMessage)
  }

  /**
   * The two call orders of errorResult agree: a code and a non-empty message
   * give the same envelope whichever comes first.
   */
  lemma ErrorResultOrderIrrelevant<T>(code: int, message: string, data: Option<T>)
    requires message != ""
    ensures ErrorResult(Num(code), Str(message), data) == ErrorResult(Str(message), Num(code), data)
  {
  }

  /**
   * A message alone yields the unknown-error code; an error envelope carries
   * the success code only when the caller passed 0 as its code; so an error
   * built without an explicit code is never mistaken for a success.
   */
  lemma ErrorResultCodes<T>(errorCodeOrMessage: JsValue, messageOrCode: JsValue, data: Option<T>)
    requires errorCodeOrMessage.Num? || errorCodeOrMessage.Str?
    ensures var r := ErrorResult(errorCodeOrMessage, messageOrCode, data);
      && (r.code == SUCCESS <==> errorCodeOrMessage == Num(SUCCESS) || (errorCodeOrMessage.Str? && messageOrCode == Num(SUCCESS)))
      && (errorCodeOrMessage.Str? && messageOrCode == Undefined ==> r.code == UNKNOWN_ERROR && r.data == data)
      && (Truthy(r.message) <==> errorCodeOrMessage.Num? || errorCodeOrMessage.s != "")
  {
  }
}
