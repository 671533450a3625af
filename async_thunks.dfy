/** The request lifecycle the three slices share: how an HTTP request
  * settles, the actions an async thunk dispatches, and the request status
  * each slice records. */
module AsyncThunks {
  import opened JsValues

  /** How a request settles: the parsed body of a 2xx response, or an error
    * carrying `error.response?.data` (undefined when no response arrived)
    * and the error's message. */
  datatype HttpResult =
    | Response(data: Value)
    | RequestError(responseData: Value, message: string)

  /** The actions one thunk dispatches: `pending` when it starts, then
    * `fulfilled` with its payload or `rejected` with `action.payload` and
    * `action.error.message`. */
  datatype Phase<T> =
    | Pending
    | Fulfilled(result: T)
    | Rejected(payload: Value, errorMessage: Value)

  /** The `status` string of every slice. */
  datatype Status = Idle | Loading | Succeeded | Failed

  /** The action a thunk dispatches after `return rejectWithValue(payload)`:
    * the toolkit then serialises the error as the message "Rejected". */
  function RejectWithValue<T>(payload: Value): (r: Phase<T>)
    ensures r.Rejected? && r.payload == payload
    ensures r.errorMessage == Str("Rejected")
  {
    Rejected(payload, Str("Rejected"))
  }

  /** The action a thunk with no `catch` dispatches when its request fails:
    * no payload, and the request error's own message. */
  function RejectWithError<T>(message: string): (r: Phase<T>)
    ensures r.Rejected? && r.payload == Undefined
    ensures r.errorMessage == Str(message)
  {
    Rejected(Undefined, Str(message))
  }
}
