/** `BaseRepository.safeApiCall`: every outcome of a network call, reply or
    exception, becomes a `Result` value; nothing is rethrown. */
module BaseRepository {
  import opened Common

  /** The client's own `Result` type: a decoded body or an error message. */
  datatype Result<+T> = Success(data: T) | Error(message: string)

  const EmptyBodyMessage: string := "Response body is empty"
  const NetworkErrorMessage: string := "Network Error: Please check your connection"
  const UnknownErrorMessage: string := "An unknown error occurred"

  /** The message of a non-2xx reply: "API Error: <code> <status message>". */
  function ApiErrorMessage(code: int, message: string): (r: string)
    // the fixed prefix, then the status message at the very end
    ensures |r| > 12 + |message| && r[..11] == "API Error: " && r[|r| - |message|..] == message
    ensures r[|r| - |message| - 1] == ' '
    // the text between them reads back as the status code
    ensures code >= 0 ==> var digits := r[11..|r| - |message| - 1];
      IsDigits(digits) && ParseNat(digits) == code
    ensures code < 0 ==> var digits := r[12..|r| - |message| - 1];
      r[11] == '-' && IsDigits(digits) && ParseNat(digits) == -code
  {
    var text := IntToString(code);
    var r := "API Error: " + text + " " + message;
    assert r[11..|r| - |message| - 1] == text;
    assert code < 0 ==> r[12..|r| - |message| - 1] == text[1..];
    r
  }

  /** Classifies the outcome of `apiCall()`. */
  function SafeApiCall<T>(call: Call<T>): (r: Result<T>)
    // a 2xx reply with a body is the only way to succeed, and yields that body
    ensures r.Success? <==> call.Returned? && call.response.IsSuccessful() && call.response.body.Some?
    ensures r.Success? ==> r.data == call.response.body.value
    // a 2xx reply without a body
    ensures call.Returned? && call.response.IsSuccessful() && call.response.body.None? ==>
              r == Error(EmptyBodyMessage)
    // a non-2xx reply: status code and status message
    ensures call.Returned? && !call.response.IsSuccessful() ==>
              r == Error(ApiErrorMessage(call.response.code, call.response.message))
    // an I/O exception: the fixed network message, whatever the exception says
    ensures call.Threw? && call.failure.kind == IOException ==> r == Error(NetworkErrorMessage)
    // any other exception: its own message, or the fallback when it has none
    ensures call.Threw? && call.failure.kind != IOException ==>
              r == Error(call.failure.message.OrElse(UnknownErrorMessage))
  {
    match call
    case Returned(response) =>
      if response.IsSuccessful() then
        match response.body
        case Some(body) => Success(body)
        case None => Error(EmptyBodyMessage)
      else
        Error(ApiErrorMessage(response.code, response.message))
    case Threw(e) =>
      if e.kind == IOException then Error(NetworkErrorMessage)
      else Error(e.message.OrElse(UnknownErrorMessage))
  }

  /** An error from `safeApiCall` never reads as a successful one, and the
      four kinds of error message are told apart by their first words. */
  lemma ErrorMessagesDistinct<T>(call: Call<T>)
    requires SafeApiCall(call).Error?
    ensures var m := SafeApiCall(call).message;
      (call.Returned? && !call.response.IsSuccessful() ==> m[..11] == "API Error: ")
      && (call.Returned? && call.response.IsSuccessful() ==> m == EmptyBodyMessage)
      && (call.Threw? && call.failure.kind == IOException ==> m[..15] == "Network Error: ")
  {
  }
}
