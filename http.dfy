/**
 * Outcomes of the REST calls. The model never performs a request: each handler is given
 * the outcome the backend would produce, and the list and form controllers react to it.
 */
module Http {
  import opened Js

  /** The `{code, message}` body of a failed call; either field may be absent. */
  datatype ErrorBody = ErrorBody(code: Option<string>, message: Option<string>)

  /** A settled promise: `.then` with `data`, or `.catch` with the error's body. */
  datatype Response<+T> = Ok(data: T) | Err(body: ErrorBody)

  /** `response.data.content`: an array, or some other value that is truthy or not. */
  datatype Content<+T> = Items(items: seq<T>) | Other(truthy: bool) {
    /** JavaScript truthiness; every array, even an empty one, is truthy. */
    predicate Truthy() {
      Items? || truthy
    }
  }

  /** `response.data` of a list call: absent (falsy), or the page envelope. */
  datatype PageData<+T> = Missing | Page(content: Content<T>, totalPages: Option<int>)

  /** `totalPages || 0`: the server's page count when it gives one that is non-zero. */
  function PagesOrZero(totalPages: Option<int>): (n: int)
    ensures totalPages.Some? ==> n == totalPages.value
    ensures totalPages.None? ==> n == 0
  {
    totalPages.GetOr(0)
  }

  /** What a list screen shows: the rows, the page count and the error text. */
  datatype ListView<T> = ListView(rows: T, totalPages: int, error: string)

  /**
   * The load of the event and event-type lists: an array `content` replaces the rows,
   * any other successful body empties the list, and a failure keeps the stale rows and
   * only sets the error text.
   */
  function ArrayLoad<T>(view: ListView<seq<T>>, response: Response<PageData<T>>, loadError: string)
    : (r: ListView<seq<T>>)
    ensures response.Ok? && response.data.Page? && response.data.content.Items? ==>
      r == ListView(response.data.content.items, PagesOrZero(response.data.totalPages), view.error)
    ensures response.Ok? && !(response.data.Page? && response.data.content.Items?) ==>
      r == ListView([], 0, view.error)
    ensures response.Err? ==> r == view.(error := loadError)
  {
    match response
    case Err(_) => view.(error := loadError)
    case Ok(Page(Items(rows), totalPages)) => ListView(rows, PagesOrZero(totalPages), view.error)
    case Ok(_) => ListView([], 0, view.error)
  }

  /**
   * The load of the controller list: any truthy `content` is taken as it is (it is not
   * checked to be an array), a falsy body empties the list, and a failure keeps the rows.
   */
  function TruthyLoad<T>(view: ListView<Content<T>>, response: Response<PageData<T>>, loadError: string)
    : (r: ListView<Content<T>>)
    ensures response.Ok? && response.data.Page? && response.data.content.Truthy() ==>
      r == ListView(response.data.content, PagesOrZero(response.data.totalPages), view.error)
    ensures response.Ok? && !(response.data.Page? && response.data.content.Truthy()) ==>
      r == ListView(Items([]), 0, view.error)
    ensures response.Err? ==> r == view.(error := loadError)
  {
    match response
    case Err(_) => view.(error := loadError)
    case Ok(Page(content, totalPages)) =>
      if content.Truthy() then ListView(content, PagesOrZero(totalPages), view.error)
      else ListView(Items([]), 0, view.error)
    case Ok(Missing) => ListView(Items([]), 0, view.error)
  }

  /**
   * The two loads agree on every well-formed or failed response; they differ only on a
   * truthy `content` that is not an array, which the controller list keeps.
   */
  lemma LoadsAgreeOnArrays<T>(rows: seq<T>, totalPages: int, error: string,
                               response: Response<PageData<T>>, loadError: string)
    requires !(response.Ok? && response.data.Page? && response.data.content.Other? && response.data.content.truthy)
    ensures var a := ArrayLoad(ListView(rows, totalPages, error), response, loadError);
            var t := TruthyLoad(ListView(Items(rows), totalPages, error), response, loadError);
            t == ListView(Items(a.rows), a.totalPages, a.error)
  {
  }
}
