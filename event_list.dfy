/**
 * The event list screen: a page of events, fetched with the page, the size, the sort
 * string and six staged filters, and reloaded whenever the page, the size, the sort or
 * the search flag changes.
 */
module EventList {
  import opened Js
  import opened Http
  import opened Entities
  import opened Sorting

  const InitialSort := "eventTime,desc"
  const LoadError := "Ошибка при загрузке событий. Попробуйте еще раз позже."
  const DeleteError := "Ошибка при удалении события. Попробуйте еще раз позже."

  /** The filter inputs above the table. */
  datatype FilterField =
    | EventTypeComment | ControllerSerialNumber | Comment | ControllerVehicleNumber
    | StartDate | EndDate

  /** The staged filter values; they reach the server only with the next load. */
  datatype Filters = Filters(eventTypeComment: string, controllerSerialNumber: string,
                             comment: string, controllerVehicleNumber: string,
                             startDate: string, endDate: string)
  {
    function Get(name: FilterField): string {
      match name
      case EventTypeComment => eventTypeComment
      case ControllerSerialNumber => controllerSerialNumber
      case Comment => comment
      case ControllerVehicleNumber => controllerVehicleNumber
      case StartDate => startDate
      case EndDate => endDate
    }

    /** One input's change handler: the named filter takes the value, the others stay. */
    function With(name: FilterField, value: string): (r: Filters)
      ensures r.Get(name) == value
      ensures forall other :: other != name ==> r.Get(other) == Get(other)
    {
      match name
      case EventTypeComment => this.(eventTypeComment := value)
      case ControllerSerialNumber => this.(controllerSerialNumber := value)
      case Comment => this.(comment := value)
      case ControllerVehicleNumber => this.(controllerVehicleNumber := value)
      case StartDate => this.(startDate := value)
      case EndDate => this.(endDate := value)
    }
  }

  const NoFilters := Filters("", "", "", "", "", "")

  /**
   * `handleClearClick`'s effect on the filters: the four text filters are emptied, the
   * period is kept.
   */
  function Cleared(filters: Filters): (r: Filters)
    ensures forall name :: name !in {StartDate, EndDate} ==> r.Get(name) == ""
    ensures r.startDate == filters.startDate && r.endDate == filters.endDate
  {
    filters.(eventTypeComment := "", controllerSerialNumber := "", comment := "",
             controllerVehicleNumber := "")
  }

  /** The values the load effect depends on: `[page, size, sort, shouldSearch]`. */
  datatype Deps = Deps(page: nat, size: nat, sort: string, shouldSearch: bool)

  /** The calls the screen makes. */
  datatype Request =
    | List(page: nat, size: nat, sort: string, filters: Filters)
    | Delete(id: string)

  class EventList {
    var events: seq<Event>
    var page: nat
    var size: nat
    var sort: string
    var filters: Filters
    var totalPages: int
    var loading: bool
    var error: string
    var shouldSearch: bool
    /** The dependencies the load effect last ran with; `None` before the first render. */
    var effectDeps: Option<Deps>
    /** Every call made to the backend, in order. */
    var requests: seq<Request>

    /** The dependencies as they are now. */
    function CurrentDeps(): Deps
      reads this
    {
      Deps(page, size, sort, shouldSearch)
    }

    /** React runs the load effect after a render in which a dependency changed. */
    predicate LoadDue()
      reads this
    {
      effectDeps != Some(CurrentDeps())
    }

    /** What the table shows. */
    function View(): ListView<seq<Event>>
      reads this
    {
      ListView(events, totalPages, error)
    }

    /** `getSortIndicator(field)` over the current sort. */
    function SortIndicator(field: string): string
      reads this
    {
      Indicator(sort, field)
    }

    /** The error alert is shown exactly when the error text is non-empty. */
    predicate AlertShown()
      reads this
    {
      error != ""
    }

    /**
     * The first render: no events, page 0 of size 10, newest events first, no filters,
     * the search flag raised and the load effect still to run.
     */
    constructor ()
      ensures events == [] && page == 0 && size == 10 && sort == InitialSort
      ensures filters == NoFilters && totalPages == 0 && !loading && error == ""
      ensures shouldSearch && effectDeps == None && requests == []
      ensures LoadDue()
    {
      events := [];
      page := 0;
      size := 10;
      sort := InitialSort;
      filters := NoFilters;
      totalPages := 0;
      loading := false;
      error := "";
      shouldSearch := true;
      effectDeps := None;
      requests := [];
    }

    /**
     * `loadEvents`: the current page is requested with the staged filters; an array
     * `content` replaces the events, any other body empties the list, a failure keeps the
     * events and sets the load error. `loading` ends false.
     */
    method LoadEvents(response: Response<PageData<Event>>)
      modifies this
      ensures requests == old(requests) + [List(page, size, sort, filters)]
      ensures View() == ArrayLoad(old(View()), response, LoadError)
      ensures !loading
      ensures page == old(page) && size == old(size) && sort == old(sort)
      ensures filters == old(filters) && shouldSearch == old(shouldSearch)
      ensures effectDeps == old(effectDeps)
    {
      loading := true;
      requests := requests + [List(page, size, sort, filters)];
      var view := ArrayLoad(View(), response, LoadError);
      events, totalPages, error := view.rows, view.totalPages, view.error;
      loading := false;
    }

    /**
     * The load effect: it loads, then lowers a raised search flag. Lowering the flag is
     * itself a change of a dependency, so after a search the effect is due once more.
     */
    method RunEffect(response: Response<PageData<Event>>)
      requires LoadDue()
      modifies this
      ensures effectDeps == Some(old(CurrentDeps()))
      ensures requests == old(requests) + [List(page, size, sort, filters)]
      ensures View() == ArrayLoad(old(View()), response, LoadError) && !loading
      ensures !shouldSearch
      ensures page == old(page) && size == old(size) && sort == old(sort) && filters == old(filters)
      ensures LoadDue() <==> old(shouldSearch)
    {
      effectDeps := Some(CurrentDeps());
      LoadEvents(response);
      if shouldSearch {
        shouldSearch := false;
      }
    }

    /**
     * `deleteEvent(id)`: a successful delete reloads the same page (there is no step back
     * when the page becomes empty); a failed one sets the delete error and keeps the list.
     */
    method DeleteEvent(id: string, deleted: Response<()>, reload: Response<PageData<Event>>)
      modifies this
      ensures deleted.Ok? ==>
        requests == old(requests) + [Delete(id), List(old(page), old(size), old(sort), old(filters))]
        && View() == ArrayLoad(old(View()), reload, LoadError) && !loading
      ensures deleted.Err? ==>
        requests == old(requests) + [Delete(id)] && events == old(events)
        && totalPages == old(totalPages) && error == DeleteError && loading == old(loading)
      ensures page == old(page) && size == old(size) && sort == old(sort) && filters == old(filters)
      ensures shouldSearch == old(shouldSearch) && effectDeps == old(effectDeps)
    {
      requests := requests + [Delete(id)];
      match deleted {
        case Ok(_) => LoadEvents(reload);
        case Err(_) => error := DeleteError;
      }
    }

    /** A click on a page number. */
    method HandlePageChange(newPage: nat)
      modifies this
      ensures page == newPage
      ensures size == old(size) && sort == old(sort) && filters == old(filters)
      ensures shouldSearch == old(shouldSearch) && effectDeps == old(effectDeps)
      ensures View() == old(View()) && requests == old(requests) && loading == old(loading)
      ensures old(effectDeps) == Some(old(CurrentDeps())) && newPage != old(page) ==> LoadDue()
    {
      page := newPage;
    }

    /** A new page size: the size is taken and the list goes back to the first page. */
    method HandleSizeChange(newSize: nat)
      modifies this
      ensures size == newSize && page == 0
      ensures sort == old(sort) && filters == old(filters)
      ensures shouldSearch == old(shouldSearch) && effectDeps == old(effectDeps)
      ensures View() == old(View()) && requests == old(requests) && loading == old(loading)
      ensures old(effectDeps) == Some(old(CurrentDeps())) && (newSize != old(size) || old(page) != 0)
        ==> LoadDue()
    {
      size := newSize;
      page := 0;
    }

    /** A click on a column header toggles the sort as `Toggle` says. */
    method HandleSortChange(field: string)
      modifies this
      ensures sort == Toggle(old(sort), field)
      ensures page == old(page) && size == old(size) && filters == old(filters)
      ensures shouldSearch == old(shouldSearch) && effectDeps == old(effectDeps)
      ensures View() == old(View()) && requests == old(requests) && loading == old(loading)
      ensures old(effectDeps) == Some(old(CurrentDeps())) && sort != old(sort) ==> LoadDue()
    {
      sort := Toggle(sort, field);
    }

    /**
     * A filter input's change handler: only that staged value changes, and since the
     * filters are no dependency of the load effect, no load becomes due.
     */
    method SetFilter(name: FilterField, value: string)
      modifies this
      ensures filters == old(filters).With(name, value)
      ensures CurrentDeps() == old(CurrentDeps()) && effectDeps == old(effectDeps)
      ensures LoadDue() == old(LoadDue())
      ensures View() == old(View()) && requests == old(requests) && loading == old(loading)
    {
      filters := filters.With(name, value);
    }

    /**
     * `handleSearchClick`: back to the first page with the search flag raised. When the
     * screen was settled with the flag lowered, this makes the load due.
     */
    method SearchClick()
      modifies this
      ensures page == 0 && shouldSearch
      ensures size == old(size) && sort == old(sort) && filters == old(filters)
      ensures effectDeps == old(effectDeps)
      ensures View() == old(View()) && requests == old(requests) && loading == old(loading)
      ensures old(effectDeps) == Some(old(CurrentDeps())) && !old(shouldSearch) ==> LoadDue()
    {
      page := 0;
      shouldSearch := true;
    }

    /**
     * `handleClearClick`: the four text filters are emptied (the period is kept), then it
     * searches like `handleSearchClick`.
     */
    method ClearClick()
      modifies this
      ensures filters == Cleared(old(filters))
      ensures page == 0 && shouldSearch
      ensures size == old(size) && sort == old(sort) && effectDeps == old(effectDeps)
      ensures View() == old(View()) && requests == old(requests) && loading == old(loading)
      ensures old(effectDeps) == Some(old(CurrentDeps())) && !old(shouldSearch) ==> LoadDue()
    {
      filters := Cleared(filters);
      page := 0;
      shouldSearch := true;
    }

    /** Closing the alert empties the error text. */
    method DismissError()
      modifies this
      ensures error == "" && !AlertShown()
      ensures events == old(events) && totalPages == old(totalPages)
      ensures CurrentDeps() == old(CurrentDeps()) && filters == old(filters)
      ensures effectDeps == old(effectDeps) && requests == old(requests) && loading == old(loading)
    {
      error := "";
    }
  }
}
