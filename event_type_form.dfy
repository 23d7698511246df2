/** The create/edit screen of an event type. */
module EventTypeForm {
  import opened Js
  import opened Http
  import opened FormSupport

  /** The fields of a new event type: `{ eventCode: '', comment: '' }`. */
  const Initial: map<string, string> := map["eventCode" := "", "comment" := ""]
  const LoadFallback := "Error loading event type"
  const SaveFallback := "Error saving event type"
  /** Where a successful save navigates to. */
  const ListRoute := "/event-types"

  class EventTypeForm {
    /** The `:id` route parameter: bound when editing, absent when creating. */
    const id: Option<string>
    /** The event type being edited, as the JSON object the backend returned. */
    var eventType: map<string, string>
    var error: ErrorInfo
    var loading: bool
    /** Every call made to the backend, in order. */
    var calls: seq<Call<map<string, string>>>
    /** The route navigated to, once a save succeeded. */
    var navigatedTo: Option<string>

    constructor(id: Option<string>)
      ensures this.id == id && eventType == Initial && error == NoError && !loading
      ensures calls == [] && navigatedTo == None
    {
      this.id := id;
      eventType := Initial;
      error := NoError;
      loading := false;
      calls := [];
      navigatedTo := None;
    }

    /**
     * The mount effect: only with an id is the event type fetched; a fetched event type
     * replaces the whole entity, a failure keeps the fields and sets the error.
     */
    method Mount(response: Response<map<string, string>>)
      modifies this
      ensures !Truthy(id) ==> eventType == old(eventType) && error == old(error)
                              && loading == old(loading) && calls == old(calls)
      ensures Truthy(id) ==> calls == old(calls) + [Fetch(id.value)] && !loading
      ensures Truthy(id) && response.Ok? ==> eventType == response.data && error == old(error)
      ensures Truthy(id) && response.Err? ==>
        eventType == old(eventType) && error == ErrorFrom(response.body, LoadFallback)
      ensures navigatedTo == old(navigatedTo)
    {
      if Truthy(id) {
        loading := true;
        calls := calls + [Fetch(id.value)];
        match response {
          case Ok(data) => eventType := data;
          case Err(body) => error := ErrorFrom(body, LoadFallback);
        }
        loading := false;
      }
    }

    /** An input's change event: only the named field changes. */
    method HandleChange(name: string, value: string)
      modifies this
      ensures eventType == WithField(old(eventType), name, value)
      ensures error == old(error) && loading == old(loading) && calls == old(calls)
      ensures navigatedTo == old(navigatedTo)
    {
      eventType := WithField(eventType, name, value);
    }

    /**
     * Submission: update when an id is bound, create otherwise, with the fields as they
     * are; success navigates to the event-type list, failure sets the error.
     */
    method HandleSubmit(response: Response<()>)
      modifies this
      ensures calls == old(calls) + [SaveCall(id, old(eventType))]
      ensures response.Ok? ==> navigatedTo == Some(ListRoute) && error == old(error)
      ensures response.Err? ==>
        navigatedTo == old(navigatedTo) && error == ErrorFrom(response.body, SaveFallback)
      ensures !loading && eventType == old(eventType)
    {
      loading := true;
      calls := calls + [SaveCall(id, eventType)];
      match response {
        case Ok(_) => navigatedTo := Some(ListRoute);
        case Err(body) => error := ErrorFrom(body, SaveFallback);
      }
      loading := false;
    }

    /** Closing the alert. */
    method DismissError()
      modifies this
      ensures error == NoError && !AlertShown(error)
      ensures eventType == old(eventType) && loading == old(loading) && calls == old(calls)
      ensures navigatedTo == old(navigatedTo)
    {
      error := NoError;
    }
  }
}
