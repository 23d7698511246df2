/**
 * The statistics screen: the events of a period are counted per calendar date (the part
 * of `eventTime` before the first `'T'`), one entry per date in the order the dates first
 * appear.
 */
module EventStatistics {
  import opened Http
  import opened Strings
  import opened Entities

  /** One point of the chart: a date and how many events fall on it. */
  datatype Entry = Entry(date: string, count: nat)

  /** `eventTime.split('T')[0]`: the time up to its first `'T'`, or all of it when there is none. */
  function DatePrefix(eventTime: string): (date: string)
    ensures date <= eventTime && 'T' !in date
    ensures |date| < |eventTime| ==> eventTime[|date|] == 'T'
  {
    Split(eventTime, 'T')[0]
  }

  /** The date of every event, in input order. */
  function Dates(events: seq<Event>): (dates: seq<string>)
    ensures |dates| == |events|
    ensures forall i :: 0 <= i < |events| ==> dates[i] == DatePrefix(events[i].eventTime)
  {
    seq(|events|, i requires 0 <= i < |events| => DatePrefix(events[i].eventTime))
  }

  /** The position of the first occurrence of `x` in `s`, or `|s|` when there is none. */
  function FirstIndex(s: seq<string>, x: string): (i: nat)
    ensures i <= |s| && (i < |s| ==> s[i] == x)
    ensures forall k :: 0 <= k < i ==> s[k] != x
  {
    if |s| == 0 || s[0] == x then 0 else 1 + FirstIndex(s[1..], x)
  }

  /** The distinct elements of `s`, each where it first occurs. */
  function Distinct(s: seq<string>): seq<string> {
    if |s| == 0 then []
    else
      var d := Distinct(s[..|s| - 1]);
      if s[|s| - 1] in d then d else d + [s[|s| - 1]]
  }

  /** One entry per key, with the key's multiplicity in `m` as its count. */
  function Tabulate(keys: seq<string>, m: multiset<string>): (entries: seq<Entry>)
    ensures |entries| == |keys|
    ensures forall i :: 0 <= i < |keys| ==> entries[i] == Entry(keys[i], m[keys[i]])
  {
    if |keys| == 0 then []
    else Tabulate(keys[..|keys| - 1], m) + [Entry(keys[|keys| - 1], m[keys[|keys| - 1]])]
  }

  /** What `formatData` returns for a list of events. */
  function Tally(events: seq<Event>): seq<Entry> {
    var dates := Dates(events);
    Tabulate(Distinct(dates), multiset(dates))
  }

  /** The sum of the counts of a list of entries. */
  function Total(entries: seq<Entry>): nat {
    if |entries| == 0 then 0 else Total(entries[..|entries| - 1]) + entries[|entries| - 1].count
  }

  /** Extending the input by one element extends the distinct elements only when it is new. */
  lemma DistinctSnoc(s: seq<string>, x: string)
    ensures Distinct(s + [x]) == if x in Distinct(s) then Distinct(s) else Distinct(s) + [x]
  {
    assert (s + [x])[..|s|] == s;
  }

  /** The distinct elements are those of `s`, each listed once. */
  lemma {:induction false} DistinctFacts(s: seq<string>)
    ensures forall x :: x in Distinct(s) <==> x in s
    ensures forall i, j :: 0 <= i < j < |Distinct(s)| ==> Distinct(s)[i] != Distinct(s)[j]
  {
    if |s| > 0 {
      var p, x := s[..|s| - 1], s[|s| - 1];
      assert s == p + [x];
      DistinctFacts(p);
      DistinctSnoc(p, x);
    }
  }

  /** The entries name each date at most once, and only dates some event falls on. */
  lemma TallyDistinct(events: seq<Event>)
    ensures var entries := Tally(events);
      && (forall i, j :: 0 <= i < j < |entries| ==> entries[i].date != entries[j].date)
      && (forall i :: 0 <= i < |entries| ==> entries[i].date in Dates(events))
  {
    var keys := Distinct(Dates(events));
    DistinctFacts(Dates(events));
    assert forall i :: 0 <= i < |keys| ==> Tally(events)[i].date == keys[i];
  }

  /** Every event's date has an entry. */
  lemma TallyCovers(events: seq<Event>)
    ensures var entries := Tally(events);
      forall k :: 0 <= k < |events| ==>
        exists i :: 0 <= i < |entries| && entries[i].date == DatePrefix(events[k].eventTime)
  {
    var dates := Dates(events);
    var keys := Distinct(dates);
    var entries := Tally(events);
    DistinctFacts(dates);
    forall k | 0 <= k < |events|
      ensures exists i :: 0 <= i < |entries| && entries[i].date == DatePrefix(events[k].eventTime)
    {
      assert dates[k] in keys;
      var i :| 0 <= i < |keys| && keys[i] == dates[k];
      assert entries[i].date == dates[k];
    }
  }

  /** Each entry counts the events of its date, which is at least one. */
  lemma TallyCounts(events: seq<Event>)
    ensures var entries := Tally(events);
      forall i :: 0 <= i < |entries| ==>
        entries[i].count == multiset(Dates(events))[entries[i].date] && entries[i].count >= 1
  {
    var dates := Dates(events);
    var keys := Distinct(dates);
    DistinctFacts(dates);
    forall i | 0 <= i < |keys| ensures multiset(dates)[keys[i]] >= 1 {
      assert keys[i] in dates;
    }
  }

  /** No events give no entries, and some events give some entry. */
  lemma TallyEmpty(events: seq<Event>)
    ensures |Tally(events)| == 0 <==> |events| == 0
  {
    DistinctFacts(Dates(events));
    if |events| > 0 {
      assert Dates(events)[0] in Distinct(Dates(events));
    }
  }

  /** The entries come in the order in which their dates first occur among the events. */
  lemma {:induction false} DistinctOrder(s: seq<string>)
    ensures forall i, j :: 0 <= i < j < |Distinct(s)| ==>
      FirstIndex(s, Distinct(s)[i]) < FirstIndex(s, Distinct(s)[j])
  {
    if |s| > 0 {
      var p, x := s[..|s| - 1], s[|s| - 1];
      assert s == p + [x];
      DistinctOrder(p);
      DistinctSnoc(p, x);
      DistinctFacts(p);
      var d := Distinct(s);
      forall i, j | 0 <= i < j < |d| ensures FirstIndex(s, d[i]) < FirstIndex(s, d[j]) {
        assert d[i] in p;
        FirstIndexPrefix(p, x, d[i]);
        if d[j] in p {
          FirstIndexPrefix(p, x, d[j]);
        } else {
          assert d[j] == x && FirstIndex(s, x) == |p|;
        }
      }
    }
  }

  /** Appending an element leaves the first occurrence of an earlier element where it was. */
  lemma FirstIndexPrefix(p: seq<string>, y: string, x: string)
    requires x in p
    ensures FirstIndex(p + [y], x) == FirstIndex(p, x)
  {
    assert (p + [y])[FirstIndex(p, x)] == x;
  }

  /** The dates of the entries, in order, are the distinct dates in order of first occurrence. */
  lemma TallyOrder(events: seq<Event>)
    ensures var entries := Tally(events);
      forall i, j :: 0 <= i < j < |entries| ==>
        FirstIndex(Dates(events), entries[i].date) < FirstIndex(Dates(events), entries[j].date)
  {
    var dates := Dates(events);
    var keys := Distinct(dates);
    var entries := Tally(events);
    DistinctOrder(dates);
    forall i, j | 0 <= i < j < |entries|
      ensures FirstIndex(dates, entries[i].date) < FirstIndex(dates, entries[j].date)
    {
      assert entries[i].date == keys[i] && entries[j].date == keys[j];
      assert FirstIndex(dates, keys[i]) < FirstIndex(dates, keys[j]);
    }
  }

  /** One more occurrence of `x` adds one to the total exactly when `x` is a key. */
  lemma {:induction false} TabulateAdd(keys: seq<string>, m: multiset<string>, x: string)
    requires forall i, j :: 0 <= i < j < |keys| ==> keys[i] != keys[j]
    ensures Total(Tabulate(keys, m + multiset{x}))
         == Total(Tabulate(keys, m)) + (if x in keys then 1 else 0)
  {
    if |keys| > 0 {
      var p := keys[..|keys| - 1];
      TabulateAdd(p, m, x);
      assert Tabulate(keys, m + multiset{x})[..|keys| - 1] == Tabulate(p, m + multiset{x});
      assert Tabulate(keys, m)[..|keys| - 1] == Tabulate(p, m);
      assert x in keys <==> x in p || x == keys[|keys| - 1];
      if x == keys[|keys| - 1] {
        assert x !in p;
      }
    }
  }

  /** The counts of the entries add up to the number of dates tallied. */
  lemma {:induction false} TotalOfDistinct(s: seq<string>)
    ensures Total(Tabulate(Distinct(s), multiset(s))) == |s|
  {
    if |s| > 0 {
      var p, x := s[..|s| - 1], s[|s| - 1];
      assert s == p + [x];
      TotalOfDistinct(p);
      var d := Distinct(p);
      DistinctFacts(p);
      TabulateAdd(d, multiset(p), x);
      if x !in d {
        var t := Tabulate(d + [x], multiset(s));
        assert t[..|d|] == Tabulate(d, multiset(s));
        assert multiset(p)[x] == 0;
      }
    }
  }

  /** The counts of the entries add up to the number of events. */
  lemma TallyTotal(events: seq<Event>)
    ensures Total(Tally(events)) == |events|
  {
    TotalOfDistinct(Dates(events));
  }

  /**
   * The dictionary `acc` holds, for exactly the dates in `keys`, how often each occurs in
   * `dates`, and `keys` lists the dates in the order they were first inserted.
   */
  ghost predicate Counted(acc: map<string, nat>, keys: seq<string>, dates: seq<string>) {
    && keys == Distinct(dates)
    && (forall k :: k in acc <==> k in keys)
    && (forall k :: k in acc ==> acc[k] == multiset(dates)[k])
  }

  /** A date seen for the first time is appended to the keys with the count one. */
  lemma CountNew(acc: map<string, nat>, keys: seq<string>, dates: seq<string>, i: nat)
    requires i < |dates| && Counted(acc, keys, dates[..i]) && dates[i] !in acc
    ensures Counted(acc[dates[i] := 0][dates[i] := 1], keys + [dates[i]], dates[..i + 1])
  {
    var prefix, date := dates[..i], dates[i];
    assert dates[..i + 1] == prefix + [date];
    DistinctSnoc(prefix, date);
    DistinctFacts(prefix);
    var m := multiset(prefix + [date]);
    assert m == multiset(prefix) + multiset{date};
    assert date !in prefix;
    var next := acc[date := 0][date := 1];
    forall k | k in next ensures next[k] == m[k] {
      if k != date {
        assert next[k] == acc[k];
      }
    }
  }

  /** A date seen before has a positive count, which goes up by one. */
  lemma CountSeen(acc: map<string, nat>, keys: seq<string>, dates: seq<string>, i: nat)
    requires i < |dates| && Counted(acc, keys, dates[..i]) && dates[i] in acc
    ensures acc[dates[i]] >= 1
    ensures Counted(acc[dates[i] := acc[dates[i]] + 1], keys, dates[..i + 1])
  {
    var prefix, date := dates[..i], dates[i];
    assert dates[..i + 1] == prefix + [date];
    DistinctSnoc(prefix, date);
    DistinctFacts(prefix);
    var m := multiset(prefix + [date]);
    assert m == multiset(prefix) + multiset{date};
    assert date in prefix;
    var next := acc[date := acc[date] + 1];
    forall k | k in next ensures next[k] == m[k] {
      if k != date {
        assert next[k] == acc[k];
      }
    }
  }

  /**
   * The `reduce` callback of `formatData`: a date without a count gets the count 0 (a new
   * key takes its place at the end of the key order, an existing key keeps its place),
   * then its count goes up by one.
   */
  method CountEvent(acc: map<string, nat>, keys: seq<string>, event: Event)
    returns (acc': map<string, nat>, keys': seq<string>)
    ensures var date := DatePrefix(event.eventTime);
      date !in acc ==> acc' == acc[date := 0][date := 1] && keys' == keys + [date]
    ensures var date := DatePrefix(event.eventTime);
      date in acc ==> acc' == acc[date := acc[date] + 1] && keys' == keys
  {
    var date := DatePrefix(event.eventTime);
    acc', keys' := acc, keys;
    if date !in acc' || acc'[date] == 0 {
      if date !in acc' {
        keys' := keys' + [date];
      }
      acc' := acc'[date := 0];
    }
    acc' := acc'[date := acc'[date] + 1];
  }

  /** The `reduce` of `formatData` over all the events. */
  method CountByDate(events: seq<Event>) returns (acc: map<string, nat>, keys: seq<string>)
    ensures Counted(acc, keys, Dates(events))
  {
    var dates := Dates(events);
    acc, keys := map[], [];
    var i := 0;
    while i < |events|
      invariant 0 <= i <= |events|
      invariant Counted(acc, keys, dates[..i])
    {
      if dates[i] in acc {
        CountSeen(acc, keys, dates, i);
      } else {
        CountNew(acc, keys, dates, i);
      }
      acc, keys := CountEvent(acc, keys, events[i]);
      i := i + 1;
    }
    assert dates[..i] == dates;
  }

  /** `Object.keys(countByDate).map(...)`: one entry per key, in key order. */
  method ListEntries(keys: seq<string>, acc: map<string, nat>, ghost m: multiset<string>)
    returns (entries: seq<Entry>)
    requires forall k :: k in keys ==> k in acc && acc[k] == m[k]
    ensures entries == Tabulate(keys, m)
  {
    entries := [];
    var j := 0;
    while j < |keys|
      invariant 0 <= j <= |keys|
      invariant entries == Tabulate(keys[..j], m)
    {
      assert keys[..j + 1][..j] == keys[..j];
      entries := entries + [Entry(keys[j], acc[keys[j]])];
      j := j + 1;
    }
    assert keys[..j] == keys;
  }

  /** `formatData`: the per-date counts of the events, in order of first occurrence. */
  method FormatData(events: seq<Event>) returns (entries: seq<Entry>)
    ensures entries == Tally(events)
  {
    var acc, keys := CountByDate(events);
    entries := ListEntries(keys, acc, multiset(Dates(events)));
  }

  /** A request the screen issues: the statistics of a period. */
  datatype Request = Statistic(startDate: string, endDate: string)

  /** The screen's state: the chart data, the chosen period and the loading flag. */
  class EventStatistics {
    var data: seq<Entry>
    var startDate: string
    var endDate: string
    var loading: bool
    var requests: seq<Request>

    /** The screen opens with no data and the period January 2024. */
    constructor ()
      ensures data == [] && startDate == "2024-01-01T00:00" && endDate == "2024-01-31T23:59"
      ensures !loading && requests == []
    {
      data := [];
      startDate := "2024-01-01T00:00";
      endDate := "2024-01-31T23:59";
      loading := false;
      requests := [];
    }

    /** The start input's change handler. */
    method SetStartDate(value: string)
      modifies this
      ensures startDate == value
      ensures data == old(data) && endDate == old(endDate) && loading == old(loading)
      ensures requests == old(requests)
    {
      startDate := value;
    }

    /** The end input's change handler. */
    method SetEndDate(value: string)
      modifies this
      ensures endDate == value
      ensures data == old(data) && startDate == old(startDate) && loading == old(loading)
      ensures requests == old(requests)
    {
      endDate := value;
    }

    /**
     * `fetchStatistics`: asks for the chosen period; a list of events replaces the data with
     * its tally, while a failure, or a body that is not a list (`reduce` throws inside the
     * `then`, which the `catch` swallows), leaves the data as it was. Loading ends false.
     */
    method FetchStatistics(response: Response<Content<Event>>)
      modifies this
      ensures requests == old(requests) + [Statistic(old(startDate), old(endDate))]
      ensures response.Ok? && response.data.Items? ==> data == Tally(response.data.items)
      ensures !(response.Ok? && response.data.Items?) ==> data == old(data)
      ensures startDate == old(startDate) && endDate == old(endDate) && !loading
    {
      loading := true;
      requests := requests + [Statistic(startDate, endDate)];
      match response {
        case Ok(Items(events)) =>
          var formatted := FormatData(events);
          data := formatted;
        case Ok(Other(_)) =>
        case Err(_) =>
      }
      loading := false;
    }
  }
}
