/**
 * The backend as the screens see it. Every `fetch` is replaced by a value of
 * `Response<T>` given to the handler: the parsed body of a success status, the
 * `message` field of a failure status, or no usable answer at all (the request
 * failed, the body was not JSON, or reading the success body threw).
 */
module Backend {
  import opened Wrappers

  datatype Response<T> = Ok(data: T) | Rejected(message: Option<string>) | Unreachable

  /** What `Alert.alert(title, message)` shows. */
  datatype Alert = Alert(title: string, message: string)

  const ErrorTitle: string := "Error"
  const SuccessTitle: string := "Success"

  /** `data.message || fallback`: the backend's message unless it is absent or empty. */
  function MessageOr(message: Option<string>, fallback: string): (r: string)
    ensures message.Some? && message.value != "" ==> r == message.value
    ensures message.None? || message.value == "" ==> r == fallback
  {
    if message.Some? && message.value != "" then message.value else fallback
  }
}
