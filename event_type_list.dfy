/**
 * The event type list screen: a page of event types, reloaded whenever the page, the
 * size or the sort changes, with delete and "generate the standard types" actions.
 */
module EventTypeList {
  import opened Js
  import opened Http
  import opened Entities
  import opened Sorting

  const InitialSort := "eventCode,asc"
  const LoadError := "Ошибка при загрузке типов событий. Попробуйте еще раз позже."
  const DeleteError := "Ошибка при удалении типа события. Попробуйте еще раз позже."

  /** The values the load effect depends on: `[page, size, sort]`. */
  datatype Deps = Deps(page: nat, size: nat, sort: string)

  /** The calls the screen makes. */
  datatype Request = List(page: nat, size: nat, sort: string) | Delete(id: string) | Generate

  class EventTypeList {
    var eventTypes: seq<EventType>
    var page: nat
    var size: nat
    var sort: string
    var totalPages: int
    var loading: bool
    var error: string
    /** The dependencies the load effect last ran with; `None` before the first render. */
    var effectDeps: Option<Deps>
    /** Every call made to the backend, in order. */
    var requests: seq<Request>

    function CurrentDeps(): Deps
      reads this
    {
      Deps(page, size, sort)
    }

    /** React runs the load effect after a render in which a dependency changed. */
    predicate LoadDue()
      reads this
    {
      effectDeps != Some(CurrentDeps())
    }

    /** What the table shows. */
    function View(): ListView<seq<EventType>>
      reads this
    {
      ListView(eventTypes, totalPages, error)
    }

    /** `getSortIndicator(field)` over the current sort. */
    function SortIndicator(field: string): string
      reads this
    {
      Indicator(sort, field)
    }

    /** The first render: page 0 of size 10, sorted by code ascending, the load still to run. */
    constructor ()
      ensures eventTypes == [] && page == 0 && size == 10 && sort == InitialSort
      ensures totalPages == 0 && !loading && error == "" && effectDeps == None && requests == []
      ensures LoadDue()
    {
      eventTypes := [];
      page := 0;
      size := 10;
      sort := InitialSort;
      totalPages := 0;
      loading := false;
      error := "";
      effectDeps := None;
      requests := [];
    }

    /**
     * `loadEventTypes`: an array `content` replaces the list, any other body empties it, a
     * failure keeps it and sets the load error. `loading` ends false.
     */
    method LoadEventTypes(response: Response<PageData<EventType>>)
      modifies this
      ensures requests == old(requests) + [List(page, size, sort)]
      ensures View() == ArrayLoad(old(View()), response, LoadError) && !loading
      ensures CurrentDeps() == old(CurrentDeps()) && effectDeps == old(effectDeps)
    {
      loading := true;
      requests := requests + [List(page, size, sort)];
      var view := ArrayLoad(View(), response, LoadError);
      eventTypes, totalPages, error := view.rows, view.totalPages, view.error;
      loading := false;
    }

    /** The load effect. */
    method RunEffect(response: Response<PageData<EventType>>)
      requires LoadDue()
      modifies this
      ensures effectDeps == Some(CurrentDeps()) && CurrentDeps() == old(CurrentDeps())
      ensures requests == old(requests) + [List(page, size, sort)]
      ensures View() == ArrayLoad(old(View()), response, LoadError) && !loading
      ensures !LoadDue()
    {
      effectDeps := Some(CurrentDeps());
      LoadEventTypes(response);
    }

    /**
     * `handleDelete(id)`, with no confirmation: success reloads with the same page, size
     * and sort; failure only sets the delete error.
     */
    method HandleDelete(id: string, deleted: Response<()>, reload: Response<PageData<EventType>>)
      modifies this
      ensures deleted.Ok? ==>
        requests == old(requests) + [Delete(id), List(old(page), old(size), old(sort))]
        && View() == ArrayLoad(old(View()), reload, LoadError) && !loading
      ensures deleted.Err? ==>
        requests == old(requests) + [Delete(id)] && eventTypes == old(eventTypes)
        && totalPages == old(totalPages) && error == DeleteError && loading == old(loading)
      ensures CurrentDeps() == old(CurrentDeps()) && effectDeps == old(effectDeps)
    {
      requests := requests + [Delete(id)];
      match deleted {
        case Ok(_) => LoadEventTypes(reload);
        case Err(_) => error := DeleteError;
      }
    }

    /**
     * `handleGenerate`: success reloads the list. The promise has no `catch`, so a failure
     * changes nothing on screen, not even the error.
     */
    method HandleGenerate(generated: Response<()>, reload: Response<PageData<EventType>>)
      modifies this
      ensures generated.Ok? ==>
        requests == old(requests) + [Generate, List(old(page), old(size), old(sort))]
        && View() == ArrayLoad(old(View()), reload, LoadError) && !loading
      ensures generated.Err? ==>
        requests == old(requests) + [Generate] && View() == old(View()) && loading == old(loading)
      ensures CurrentDeps() == old(CurrentDeps()) && effectDeps == old(effectDeps)
    {
      requests := requests + [Generate];
      if generated.Ok? {
        LoadEventTypes(reload);
      }
    }

    /** A click on a page number. */
    method HandlePageChange(newPage: nat)
      modifies this
      ensures page == newPage && size == old(size) && sort == old(sort)
      ensures effectDeps == old(effectDeps)
      ensures View() == old(View()) && requests == old(requests) && loading == old(loading)
      ensures old(effectDeps) == Some(old(CurrentDeps())) && newPage != old(page) ==> LoadDue()
    {
      page := newPage;
    }

    /** A new page size: the size is taken and the list goes back to the first page. */
    method HandleSizeChange(newSize: nat)
      modifies this
      ensures size == newSize && page == 0 && sort == old(sort)
      ensures effectDeps == old(effectDeps)
      ensures View() == old(View()) && requests == old(requests) && loading == old(loading)
      ensures old(effectDeps) == Some(old(CurrentDeps())) && (newSize != old(size) || old(page) != 0)
        ==> LoadDue()
    {
      size := newSize;
      page := 0;
    }

    /** A click on a column header toggles the sort as `Toggle` says. */
    method HandleSortChange(field: string)
      modifies this
      ensures sort == Toggle(old(sort), field) && page == old(page) && size == old(size)
      ensures effectDeps == old(effectDeps)
      ensures View() == old(View()) && requests == old(requests) && loading == old(loading)
      ensures old(effectDeps) == Some(old(CurrentDeps())) && sort != old(sort) ==> LoadDue()
    {
      sort := Toggle(sort, field);
    }

    /** Closing the alert empties the error text. */
    method DismissError()
      modifies this
      ensures error == "" && eventTypes == old(eventTypes) && totalPages == old(totalPages)
      ensures CurrentDeps() == old(CurrentDeps()) && effectDeps == old(effectDeps)
      ensures requests == old(requests) && loading == old(loading)
    {
      error := "";
    }
  }
}
