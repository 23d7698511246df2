/**
 * The controller list screen: a page of controllers, reloaded whenever the page, the size
 * or the sort changes, with a delete that asks for confirmation first.
 */
module ControllerList {
  import opened Js
  import opened Http
  import opened Entities
  import opened Sorting

  const InitialSort := "serialNumber,asc"
  const LoadError := "Ошибка при загрузке контроллеров. Попробуйте еще раз позже."
  const DeleteError := "Ошибка при удалении контроллера. Попробуйте еще раз позже."

  /** The values the load effect depends on: `[page, size, sort]`. */
  datatype Deps = Deps(page: nat, size: nat, sort: string)

  /** The calls the screen makes. */
  datatype Request = List(page: nat, size: nat, sort: string) | Delete(id: string)

  class ControllerList {
    /** The rows: whatever truthy `content` the server sent, not necessarily an array. */
    var controllers: Content<Controller>
    var page: nat
    var size: nat
    var sort: string
    var totalPages: int
    var loading: bool
    var error: string
    /** The dependencies the load effect last ran with; `None` before the first render. */
    var effectDeps: Option<Deps>
    /** Every call made to the backend, in order. */
    var requests: seq<Request>

    function CurrentDeps(): Deps
      reads this
    {
      Deps(page, size, sort)
    }

    /** React runs the load effect after a render in which a dependency changed. */
    predicate LoadDue()
      reads this
    {
      effectDeps != Some(CurrentDeps())
    }

    /** What the table shows. */
    function View(): ListView<Content<Controller>>
      reads this
    {
      ListView(controllers, totalPages, error)
    }

    /** `getSortIndicator(field)` over the current sort. */
    function SortIndicator(field: string): string
      reads this
    {
      Indicator(sort, field)
    }

    /** The first render: page 0 of size 10, sorted by serial number ascending. */
    constructor ()
      ensures controllers == Items([]) && page == 0 && size == 10 && sort == InitialSort
      ensures totalPages == 0 && !loading && error == "" && effectDeps == None && requests == []
      ensures LoadDue()
    {
      controllers := Items([]);
      page := 0;
      size := 10;
      sort := InitialSort;
      totalPages := 0;
      loading := false;
      error := "";
      effectDeps := None;
      requests := [];
    }

    /**
     * `loadControllers`: any truthy `content` replaces the rows, a falsy one empties them,
     * a failure keeps them and sets the load error. `loading` ends false.
     */
    method LoadControllers(response: Response<PageData<Controller>>)
      modifies this
      ensures requests == old(requests) + [List(page, size, sort)]
      ensures View() == TruthyLoad(old(View()), response, LoadError) && !loading
      ensures CurrentDeps() == old(CurrentDeps()) && effectDeps == old(effectDeps)
    {
      loading := true;
      requests := requests + [List(page, size, sort)];
      var view := TruthyLoad(View(), response, LoadError);
      controllers, totalPages, error := view.rows, view.totalPages, view.error;
      loading := false;
    }

    /** The load effect. */
    method RunEffect(response: Response<PageData<Controller>>)
      requires LoadDue()
      modifies this
      ensures effectDeps == Some(CurrentDeps()) && CurrentDeps() == old(CurrentDeps())
      ensures requests == old(requests) + [List(page, size, sort)]
      ensures View() == TruthyLoad(old(View()), response, LoadError) && !loading
      ensures !LoadDue()
    {
      effectDeps := Some(CurrentDeps());
      LoadControllers(response);
    }

    /**
     * `handleDelete(id)`: when the confirmation is declined nothing happens. Otherwise
     * `loading` is raised, a successful delete reloads the same page and a failed one sets
     * the delete error; `loading` ends false in both cases.
     */
    method HandleDelete(id: string, confirmed: bool, deleted: Response<()>,
                        reload: Response<PageData<Controller>>)
      modifies this
      ensures !confirmed ==> View() == old(View()) && requests == old(requests) && loading == old(loading)
      ensures confirmed && deleted.Ok? ==>
        requests == old(requests) + [Delete(id), List(old(page), old(size), old(sort))]
        && View() == TruthyLoad(old(View()), reload, LoadError)
      ensures confirmed && deleted.Err? ==>
        requests == old(requests) + [Delete(id)] && controllers == old(controllers)
        && totalPages == old(totalPages) && error == DeleteError
      ensures confirmed ==> !loading
      ensures CurrentDeps() == old(CurrentDeps()) && effectDeps == old(effectDeps)
    {
      if confirmed {
        loading := true;
        requests := requests + [Delete(id)];
        match deleted {
          case Ok(_) => LoadControllers(reload);
          case Err(_) => error := DeleteError;
        }
        loading := false;
      }
    }

    /** A click on a page number. */
    method HandlePageChange(newPage: nat)
      modifies this
      ensures page == newPage && size == old(size) && sort == old(sort)
      ensures effectDeps == old(effectDeps)
      ensures View() == old(View()) && requests == old(requests) && loading == old(loading)
      ensures old(effectDeps) == Some(old(CurrentDeps())) && newPage != old(page) ==> LoadDue()
    {
      page := newPage;
    }

    /** A new page size: the size is taken and the list goes back to the first page. */
    method HandleSizeChange(newSize: nat)
      modifies this
      ensures size == newSize && page == 0 && sort == old(sort)
      ensures effectDeps == old(effectDeps)
      ensures View() == old(View()) && requests == old(requests) && loading == old(loading)
      ensures old(effectDeps) == Some(old(CurrentDeps())) && (newSize != old(size) || old(page) != 0)
        ==> LoadDue()
    {
      size := newSize;
      page := 0;
    }

    /** A click on a column header toggles the sort as `Toggle` says. */
    method HandleSortChange(field: string)
      modifies this
      ensures sort == Toggle(old(sort), field) && page == old(page) && size == old(size)
      ensures effectDeps == old(effectDeps)
      ensures View() == old(View()) && requests == old(requests) && loading == old(loading)
      ensures old(effectDeps) == Some(old(CurrentDeps())) && sort != old(sort) ==> LoadDue()
    {
      sort := Toggle(sort, field);
    }

    /** Closing the alert empties the error text. */
    method DismissError()
      modifies this
      ensures error == "" && controllers == old(controllers) && totalPages == old(totalPages)
      ensures CurrentDeps() == old(CurrentDeps()) && effectDeps == old(effectDeps)
      ensures requests == old(requests) && loading == old(loading)
    {
      error := "";
    }
  }
}
