/** The create/edit screen of a controller. */
module ControllerForm {
  import opened Js
  import opened Http
  import opened FormSupport

  /** The fields of a new controller: `{ serialNumber: '', guid: '' }`. */
  const Initial: map<string, string> := map["serialNumber" := "", "guid" := ""]
  const LoadFallback := "Error loading controller"
  const SaveFallback := "Error saving controller"
  /** Where a successful save navigates to. */
  const ListRoute := "/controllers"

  class ControllerForm {
    /** The `:id` route parameter: bound when editing, absent when creating. */
    const id: Option<string>
    /** The controller being edited, as the JSON object the backend returned. */
    var controller: map<string, string>
    var error: ErrorInfo
    var loading: bool
    /** Every call made to the backend, in order. */
    var calls: seq<Call<map<string, string>>>
    /** The route navigated to, once a save succeeded. */
    var navigatedTo: Option<string>

    constructor(id: Option<string>)
      ensures this.id == id && controller == Initial && error == NoError && !loading
      ensures calls == [] && navigatedTo == None
    {
      this.id := id;
      controller := Initial;
      error := NoError;
      loading := false;
      calls := [];
      navigatedTo := None;
    }

    /**
     * The mount effect: only with an id is the controller fetched; a fetched controller
     * replaces the whole entity, a failure keeps the fields and sets the error.
     */
    method Mount(response: Response<map<string, string>>)
      modifies this
      ensures !Truthy(id) ==> controller == old(controller) && error == old(error)
                              && loading == old(loading) && calls == old(calls)
      ensures Truthy(id) ==> calls == old(calls) + [Fetch(id.value)] && !loading
      ensures Truthy(id) && response.Ok? ==> controller == response.data && error == old(error)
      ensures Truthy(id) && response.Err? ==>
        controller == old(controller) && error == ErrorFrom(response.body, LoadFallback)
      ensures navigatedTo == old(navigatedTo)
    {
      if Truthy(id) {
        loading := true;
        calls := calls + [Fetch(id.value)];
        match response {
          case Ok(data) => controller := data;
          case Err(body) => error := ErrorFrom(body, LoadFallback);
        }
        loading := false;
      }
    }

    /** An input's change event: only the named field changes. */
    method HandleChange(name: string, value: string)
      modifies this
      ensures controller == WithField(old(controller), name, value)
      ensures error == old(error) && loading == old(loading) && calls == old(calls)
      ensures navigatedTo == old(navigatedTo)
    {
      controller := WithField(controller, name, value);
    }

    /**
     * Submission: update when an id is bound, create otherwise, with the fields as they
     * are; success navigates to the controller list, failure sets the error.
     */
    method HandleSubmit(response: Response<()>)
      modifies this
      ensures calls == old(calls) + [SaveCall(id, old(controller))]
      ensures response.Ok? ==> navigatedTo == Some(ListRoute) && error == old(error)
      ensures response.Err? ==>
        navigatedTo == old(navigatedTo) && error == ErrorFrom(response.body, SaveFallback)
      ensures !loading && controller == old(controller)
    {
      loading := true;
      calls := calls + [SaveCall(id, controller)];
      match response {
        case Ok(_) => navigatedTo := Some(ListRoute);
        case Err(body) => error := ErrorFrom(body, SaveFallback);
      }
      loading := false;
    }

    /** Closing the alert. */
    method DismissError()
      modifies this
      ensures error == NoError && !AlertShown(error)
      ensures controller == old(controller) && loading == old(loading) && calls == old(calls)
      ensures navigatedTo == old(navigatedTo)
    {
      error := NoError;
    }
  }
}
