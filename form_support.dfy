/** What the three entity forms share: the error they show and the calls they make. */
module FormSupport {
  import opened Js
  import opened Http

  /** The `{code, message}` error a form keeps; the empty pair means "no error". */
  datatype ErrorInfo = ErrorInfo(code: string, message: string)

  const NoError := ErrorInfo("", "")
  const UnknownCode := "Unknown Error"

  /**
   * The error a form shows for a failed call: the backend's `code` and `message` when
   * present and non-empty, `'Unknown Error'` and the form's own fallback text otherwise.
   */
  function ErrorFrom(body: ErrorBody, fallback: string): (e: ErrorInfo)
    ensures Truthy(body.code) ==> e.code == body.code.value
    ensures !Truthy(body.code) ==> e.code == UnknownCode
    ensures Truthy(body.message) ==> e.message == body.message.value
    ensures !Truthy(body.message) ==> e.message == fallback
    ensures fallback != "" ==> e.code != "" && e.message != ""
  {
    ErrorInfo(OrElse(body.code, UnknownCode), OrElse(body.message, fallback))
  }

  /**
   * The alert of a form is shown exactly when the error has a message
   * (`show={!!error.message}`).
   */
  predicate AlertShown(error: ErrorInfo) {
    error.message != ""
  }

  /** A failed call always leaves an alert on screen, since every fallback is non-empty. */
  lemma FailureShowsAlert(body: ErrorBody, fallback: string)
    requires fallback != ""
    ensures AlertShown(ErrorFrom(body, fallback))
  {
  }

  /**
   * `setX(prev => ({ ...prev, [name]: value }))`: the named field takes the new value and
   * every other field keeps its presence and its value.
   */
  function WithField(fields: map<string, string>, name: string, value: string): (r: map<string, string>)
    ensures name in r && r[name] == value
    ensures forall k :: k != name ==> (k in r <==> k in fields)
    ensures forall k :: k != name && k in fields ==> r[k] == fields[k]
  {
    fields[name := value]
  }

  /** The calls a form makes to the backend, with their payloads. */
  datatype Call<P> = Fetch(id: string) | Create(payload: P) | Update(id: string, payload: P)

  /** `id ? update(id, payload) : create(payload)`: an update exactly when an id is bound. */
  function SaveCall<P>(id: Option<string>, payload: P): (c: Call<P>)
    ensures c.Update? <==> Truthy(id)
    ensures c.Update? ==> c == Update(id.value, payload)
    ensures c.Create? ==> c == Create(payload)
  {
    if Truthy(id) then Update(id.value, payload) else Create(payload)
  }
}
