/**
 * The `"field,order"` sort string every list screen keeps, how a click on a column
 * header toggles it, and the arrow shown beside a column header.
 */
module Sorting {
  import opened Js
  import opened Strings

  const Asc := "asc"
  const Desc := "desc"
  /** The up arrow shown beside a column sorted ascending. */
  const Up := "\U{25B2}"
  /** The down arrow shown beside the sorted column in every other case. */
  const Down := "\U{25BC}"

  /** `const [currentField] = sort.split(',')`. */
  function SortField(sort: string): string {
    Split(sort, ',')[0]
  }

  /** `const [, currentOrder] = sort.split(',')`: `undefined` when there is no comma. */
  function SortOrder(sort: string): Option<string> {
    var parts := Split(sort, ',');
    if |parts| >= 2 then Some(parts[1]) else None
  }

  /**
   * `handleSortChange(field)`: the new sort string is `field` with `desc` exactly when
   * `field` is already sorted ascending, and with `asc` in every other case.
   */
  function Toggle(sort: string, field: string): (r: string)
    ensures r == field + "," + Asc || r == field + "," + Desc
    ensures r == field + "," + Desc <==> SortField(sort) == field && SortOrder(sort) == Some(Asc)
  {
    var order := if SortField(sort) == field && SortOrder(sort) == Some(Asc) then Desc else Asc;
    assert (field + "," + Asc)[|field| + 1..] != (field + "," + Desc)[|field| + 1..];
    field + "," + order
  }

  /** `getSortIndicator(field)`. */
  function Indicator(sort: string, field: string): (r: string)
    ensures r == Up <==> SortField(sort) == field && SortOrder(sort) == Some(Asc)
    ensures r == Down <==> SortField(sort) == field && SortOrder(sort) != Some(Asc)
    ensures r == "" <==> SortField(sort) != field
  {
    if SortField(sort) == field then (if SortOrder(sort) == Some(Asc) then Up else Down) else ""
  }

  /** A sort string `field,order` reads back as that field and that order. */
  lemma ParseSort(field: string, order: string)
    requires ',' !in field && ',' !in order
    ensures SortField(field + "," + order) == field
    ensures SortOrder(field + "," + order) == Some(order)
  {
    SplitAfterFirst(field, ',', order);
    SplitWithoutSep(order, ',');
  }

  /** A click on a column other than the sorted one starts it ascending. */
  lemma ToggleNewField(sort: string, field: string)
    requires SortField(sort) != field
    ensures Toggle(sort, field) == field + "," + Asc
  {
  }

  /** A click on the column sorted ascending turns it descending, and back. */
  lemma ToggleSameField(field: string)
    requires ',' !in field
    ensures Toggle(field + "," + Asc, field) == field + "," + Desc
    ensures Toggle(field + "," + Desc, field) == field + "," + Asc
  {
    ParseSort(field, Asc);
    ParseSort(field, Desc);
  }

  /**
   * Two clicks on the same column restore a sort string of that column, whatever its
   * order; from any other sort string, the second click flips the order the first chose.
   */
  lemma ToggleTwice(sort: string, field: string)
    requires ',' !in field
    ensures sort == field + "," + Asc || sort == field + "," + Desc
      ==> Toggle(Toggle(sort, field), field) == sort
    ensures Toggle(Toggle(sort, field), field) != Toggle(sort, field)
    ensures Toggle(Toggle(Toggle(sort, field), field), field) == Toggle(sort, field)
  {
    ToggleSameField(field);
  }

  /** After a click on a column, that column shows an arrow and every other column none. */
  lemma IndicatorAfterToggle(sort: string, field: string, other: string)
    requires ',' !in field && other != field
    ensures Indicator(Toggle(sort, field), field) == (if Toggle(sort, field) == field + "," + Asc then Up else Down)
    ensures Indicator(Toggle(sort, field), other) == ""
  {
    ParseSort(field, Asc);
    ParseSort(field, Desc);
  }
}
