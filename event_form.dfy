/**
 * The create/edit screen of an event: the conversion of the event time between the
 * server's `YYYY-MM-DD HH:mm`, the `datetime-local` input's `YYYY-MM-DDTHH:mm`, and the
 * fields of a date; and the form's load, change and submit handlers.
 */
module EventForm {
  import opened Js
  import opened Http
  import opened Strings
  import opened Entities
  import opened FormSupport

  /**
   * The local-time fields `new Date(eventTime)` yields: `getFullYear()`, the 0-based
   * `getMonth()`, `getDate()`, `getHours()` and `getMinutes()`.
   */
  datatype DateFields = DateFields(year: int, month: nat, day: nat, hours: nat, minutes: nat)

  /** The ranges a `Date` keeps its fields in. */
  predicate ValidFields(d: DateFields) {
    d.month < 12 && 1 <= d.day <= 31 && d.hours < 24 && d.minutes < 60
  }

  /** `String(n).padStart(2, '0')`. */
  function Pad2(n: nat): string {
    PadStart2(NatToString(n))
  }

  /** The part of a formatted time after the year: `-MM-DD HH:mm`. */
  function Tail(month: string, day: string, hours: string, minutes: string): string {
    "-" + month + "-" + day + " " + hours + ":" + minutes
  }

  /** With two-character parts, the tail is twelve characters at fixed positions. */
  lemma TailLayout(mo: string, da: string, ho: string, mi: string)
    requires |mo| == 2 && |da| == 2 && |ho| == 2 && |mi| == 2
    ensures var t := Tail(mo, da, ho, mi);
      && |t| == 12
      && t[0] == '-' && t[3] == '-' && t[6] == ' ' && t[9] == ':'
      && t[1] == mo[0] && t[2] == mo[1] && t[4] == da[0] && t[5] == da[1]
      && t[7] == ho[0] && t[8] == ho[1] && t[10] == mi[0] && t[11] == mi[1]
  {
    assert mo == [mo[0], mo[1]];
    assert da == [da[0], da[1]];
    assert ho == [ho[0], ho[1]];
    assert mi == [mi[0], mi[1]];
    assert Tail(mo, da, ho, mi)
        == ['-', mo[0], mo[1], '-', da[0], da[1], ' ', ho[0], ho[1], ':', mi[0], mi[1]];
  }

  /** The value of two decimal digits. */
  function TwoDigits(hi: char, lo: char): nat
    requires IsDigit(hi) && IsDigit(lo)
  {
    DigitValue(hi) * 10 + DigitValue(lo)
  }

  /**
   * `formatDateTime`: `''` for a falsy server time, otherwise
   * `year-MM-DD HH:mm` with the 1-based month, the day, the hours and the minutes
   * zero-padded to two digits. The result never contains a `'T'`.
   */
  function FormatDateTime(dateTime: Option<DateFields>): (s: string)
    ensures s == "" <==> dateTime.None?
    ensures 'T' !in s
  {
    match dateTime
    case None => ""
    case Some(d) =>
      var mo, da, ho, mi := Pad2(d.month + 1), Pad2(d.day), Pad2(d.hours), Pad2(d.minutes);
      DigitsExclude(NatToString(if d.year < 0 then -d.year else d.year), 'T');
      DigitsExclude(mo, 'T');
      DigitsExclude(da, 'T');
      DigitsExclude(ho, 'T');
      DigitsExclude(mi, 'T');
      IntToString(d.year) + Tail(mo, da, ho, mi)
  }

  /**
   * Reads `year-MM-DD HH:mm` back into date fields: the last twelve characters are the
   * fixed-width part, everything before them the year. This is the inverse of
   * `FormatDateTime` and shows the formatted string loses nothing.
   */
  function ParseDateTime(s: string): Option<DateFields> {
    if |s| < 13 then None
    else
      var y := s[..|s| - 12];
      var t := s[|s| - 12..];
      if AllDigits(y) && IsDigit(t[1]) && IsDigit(t[2]) && IsDigit(t[4]) && IsDigit(t[5])
         && IsDigit(t[7]) && IsDigit(t[8]) && IsDigit(t[10]) && IsDigit(t[11])
         && t[0] == '-' && t[3] == '-' && t[6] == ' ' && t[9] == ':'
         && TwoDigits(t[1], t[2]) >= 1
      then Some(DateFields(ParseNat(y), TwoDigits(t[1], t[2]) - 1, TwoDigits(t[4], t[5]),
                           TwoDigits(t[7], t[8]), TwoDigits(t[10], t[11])))
      else None
  }

  /** A digit-only year followed by a well-laid twelve-character tail parses to its parts. */
  lemma ParseFixedWidth(y: string, t: string)
    requires |y| >= 1 && AllDigits(y) && |t| == 12
    requires t[0] == '-' && t[3] == '-' && t[6] == ' ' && t[9] == ':'
    requires IsDigit(t[1]) && IsDigit(t[2]) && IsDigit(t[4]) && IsDigit(t[5])
    requires IsDigit(t[7]) && IsDigit(t[8]) && IsDigit(t[10]) && IsDigit(t[11])
    requires TwoDigits(t[1], t[2]) >= 1
    ensures ParseDateTime(y + t)
         == Some(DateFields(ParseNat(y), TwoDigits(t[1], t[2]) - 1, TwoDigits(t[4], t[5]),
                            TwoDigits(t[7], t[8]), TwoDigits(t[10], t[11])))
  {
    var s := y + t;
    assert s[..|s| - 12] == y;
    assert s[|s| - 12..] == t;
  }

  /** For a non-negative year, the year part of a formatted time is its plain digits. */
  lemma FormatParts(d: DateFields)
    requires d.year >= 0
    ensures FormatDateTime(Some(d))
         == NatToString(d.year) + Tail(Pad2(d.month + 1), Pad2(d.day), Pad2(d.hours), Pad2(d.minutes))
  {
    assert IntToString(d.year) == NatToString(d.year);
  }

  /** A digit-only year followed by four two-digit parts parses to the parts' values. */
  lemma ParseParts(y: string, mo: string, da: string, ho: string, mi: string)
    requires |y| >= 1 && AllDigits(y)
    requires |mo| == 2 && |da| == 2 && |ho| == 2 && |mi| == 2
    requires IsDigit(mo[0]) && IsDigit(mo[1]) && IsDigit(da[0]) && IsDigit(da[1])
    requires IsDigit(ho[0]) && IsDigit(ho[1]) && IsDigit(mi[0]) && IsDigit(mi[1])
    requires TwoDigits(mo[0], mo[1]) >= 1
    ensures ParseDateTime(y + Tail(mo, da, ho, mi))
         == Some(DateFields(ParseNat(y), TwoDigits(mo[0], mo[1]) - 1, TwoDigits(da[0], da[1]),
                            TwoDigits(ho[0], ho[1]), TwoDigits(mi[0], mi[1])))
  {
    TailLayout(mo, da, ho, mi);
    ParseFixedWidth(y, Tail(mo, da, ho, mi));
  }

  /** For a date of a non-negative year, the formatted string parses back to the same fields. */
  lemma FormatParse(d: DateFields)
    requires d.year >= 0 && ValidFields(d)
    ensures ParseDateTime(FormatDateTime(Some(d))) == Some(d)
  {
    FormatParts(d);
    Pad2Digits(d.month + 1);
    Pad2Digits(d.day);
    Pad2Digits(d.hours);
    Pad2Digits(d.minutes);
    ParseNatToString(d.year);
    ParseParts(NatToString(d.year), Pad2(d.month + 1), Pad2(d.day), Pad2(d.hours), Pad2(d.minutes));
  }

  /** The value the `datetime-local` input shows: `eventTime.replace(' ', 'T')`. */
  function Display(eventTime: string): (shown: string)
    ensures |shown| == |eventTime|
  {
    ReplaceFirst(eventTime, ' ', 'T')
  }

  /**
   * `formatToServerDateTime`: `''` for the empty string, otherwise the first `'T'`
   * replaced by a space.
   */
  function ToServer(dateTime: string): (r: string)
    ensures r == "" <==> dateTime == ""
    ensures 'T' !in dateTime ==> r == dateTime
  {
    if dateTime == "" then "" else ReplaceFirst(dateTime, 'T', ' ')
  }

  /**
   * A stored time shown in the input and converted back for the server is unchanged,
   * whenever it has no `'T'` of its own; in particular every formatted time survives.
   */
  lemma DisplayRoundTrip(eventTime: string)
    requires 'T' !in eventTime
    ensures ToServer(Display(eventTime)) == eventTime
  {
    if eventTime != "" {
      ReplaceFirstRoundTrip(eventTime, ' ', 'T');
    }
  }

  /** The names of the form's inputs. */
  datatype Field = EventTypeField | ControllerField | EventTimeField | CommentField

  /** The form's `event` state: the four input values. */
  datatype Draft = Draft(eventType: string, controller: string, eventTime: string, comment: string) {
    /** `event[name]`. */
    function Get(name: Field): string {
      match name
      case EventTypeField => eventType
      case ControllerField => controller
      case EventTimeField => eventTime
      case CommentField => comment
    }

    /** `{ ...event, [name]: value }`: the named field takes the value, the others stay. */
    function With(name: Field, value: string): (r: Draft)
      ensures r.Get(name) == value
      ensures forall other :: other != name ==> r.Get(other) == Get(other)
    {
      match name
      case EventTypeField => this.(eventType := value)
      case ControllerField => this.(controller := value)
      case EventTimeField => this.(eventTime := value)
      case CommentField => this.(comment := value)
    }
  }

  /** The fields a new event starts with: all four empty. */
  const Initial := Draft("", "", "", "")

  /** An event as `getEventById` returns it; a missing reference is `null`. */
  datatype StoredEvent = StoredEvent(eventType: Option<EventType>, controller: Option<Controller>,
                                     eventTime: Option<DateFields>, comment: string)

  /**
   * The fields a fetched event is mapped to: the event type's id, the controller's guid,
   * the formatted event time and the comment.
   */
  function Loaded(stored: StoredEvent): (event: Draft)
    requires stored.eventType.Some? && stored.controller.Some?
    ensures event.eventType == stored.eventType.value.id
    ensures event.controller == stored.controller.value.guid
    ensures event.eventTime == FormatDateTime(stored.eventTime)
    ensures event.comment == stored.comment
  {
    Draft(stored.eventType.value.id, stored.controller.value.guid,
          FormatDateTime(stored.eventTime), stored.comment)
  }

  /** The body `handleSubmit` sends: the four fields, with the event time in server form. */
  function Payload(event: Draft): (p: Draft)
    ensures p.eventTime == ToServer(event.eventTime)
    ensures forall name :: name != EventTimeField ==> p.Get(name) == event.Get(name)
  {
    event.(eventTime := ToServer(event.eventTime))
  }

  /**
   * Loading an event for editing and submitting it untouched sends exactly the fields it
   * was loaded with: the formatted time needs no conversion.
   */
  lemma ResubmitUnchanged(stored: StoredEvent)
    requires stored.eventType.Some? && stored.controller.Some?
    ensures Payload(Loaded(stored)) == Loaded(stored)
  {
  }

  const LoadFallback := "Error loading event"

  /**
   * The fields and error after `loadEvent` settles: a fetched event with both references
   * is mapped into the fields; a failed call, or an event whose type or controller is
   * `null` (the mapping throws), keeps the fields and sets the error with the event
   * fallback.
   */
  function LoadEventResult(event: Draft, error: ErrorInfo, response: Response<StoredEvent>)
    : (r: (Draft, ErrorInfo))
    ensures response.Ok? && response.data.eventType.Some? && response.data.controller.Some? ==>
      r == (Loaded(response.data), error)
    ensures response.Ok? && !(response.data.eventType.Some? && response.data.controller.Some?) ==>
      r == (event, ErrorFrom(ErrorBody(None, None), LoadFallback))
    ensures response.Err? ==> r == (event, ErrorFrom(response.body, LoadFallback))
  {
    match response
    case Ok(stored) =>
      if stored.eventType.Some? && stored.controller.Some? then (Loaded(stored), error)
      else (event, ErrorFrom(ErrorBody(None, None), LoadFallback))
    case Err(body) => (event, ErrorFrom(body, LoadFallback))
  }
  const TypesFallback := "Error loading event types"
  const ControllersFallback := "Error loading controllers"
  const SaveFallback := "Error saving event"
  /** Where a successful save navigates to. */
  const ListRoute := "/events"

  /**
   * The error after a load of select options settles: a body with data leaves the error as
   * it was; a body without data (reading `.content` throws) or a failure sets the error
   * with the given fallback.
   */
  function OptionsError<T>(error: ErrorInfo, response: Response<PageData<T>>, fallback: string)
    : (e: ErrorInfo)
    ensures response.Ok? && response.data.Page? ==> e == error
    ensures response.Ok? && response.data.Missing? ==> e == ErrorFrom(ErrorBody(None, None), fallback)
    ensures response.Err? ==> e == ErrorFrom(response.body, fallback)
    ensures fallback != "" && !(response.Ok? && response.data.Page?) ==> AlertShown(e)
  {
    match response
    case Ok(Page(_, _)) => error
    case Ok(Missing) => ErrorFrom(ErrorBody(None, None), fallback)
    case Err(body) => ErrorFrom(body, fallback)
  }

  /** The calls the event form makes. */
  datatype Request =
    | EventCall(call: Call<Draft>)
    | ListEventTypes(page: nat, size: nat, sort: string)
    | ListControllers(page: nat, size: nat, sort: string)

  class EventForm {
    /** The `:id` route parameter: bound when editing, absent when creating. */
    const id: Option<string>
    var event: Draft
    /** The options of the event-type and controller selects (`response.data.content`). */
    var eventTypes: Content<EventType>
    var controllers: Content<Controller>
    var error: ErrorInfo
    var loading: bool
    var requests: seq<Request>
    var navigatedTo: Option<string>

    constructor(id: Option<string>)
      ensures this.id == id && event == Initial && eventTypes == Items([]) && controllers == Items([])
      ensures error == NoError && !loading && requests == [] && navigatedTo == None
    {
      this.id := id;
      event := Initial;
      eventTypes := Items([]);
      controllers := Items([]);
      error := NoError;
      loading := false;
      requests := [];
      navigatedTo := None;
    }

    /**
     * `loadEvent(id)`: the call is logged, the fields and the error become what
     * `LoadEventResult` says, and `loading` ends false.
     */
    method LoadEvent(response: Response<StoredEvent>)
      requires Truthy(id)
      modifies this
      ensures requests == old(requests) + [EventCall(Fetch(id.value))] && !loading
      ensures (event, error) == LoadEventResult(old(event), old(error), response)
      ensures eventTypes == old(eventTypes) && controllers == old(controllers)
      ensures navigatedTo == old(navigatedTo)
    {
      loading := true;
      requests := requests + [EventCall(Fetch(id.value))];
      var settled := LoadEventResult(event, error, response);
      event, error := settled.0, settled.1;
      loading := false;
    }

    /**
     * `loadEventTypes`: the first 100 event types, unsorted. The body's `content` becomes the
     * options; a body without `data` throws and lands in the error like a failed call.
     */
    method LoadEventTypes(response: Response<PageData<EventType>>)
      modifies this
      ensures requests == old(requests) + [ListEventTypes(0, 100, "")]
      ensures error == OptionsError(old(error), response, TypesFallback)
      ensures response.Ok? && response.data.Page? ==>
        eventTypes == response.data.content && error == old(error)
      ensures response.Ok? && response.data.Missing? ==>
        eventTypes == old(eventTypes) && error == ErrorFrom(ErrorBody(None, None), TypesFallback)
      ensures response.Err? ==>
        eventTypes == old(eventTypes) && error == ErrorFrom(response.body, TypesFallback)
      ensures event == old(event) && controllers == old(controllers) && loading == old(loading)
      ensures navigatedTo == old(navigatedTo)
    {
      requests := requests + [ListEventTypes(0, 100, "")];
      match response {
        case Ok(Page(content, _)) => eventTypes := content;
        case Ok(Missing) => error := ErrorFrom(ErrorBody(None, None), TypesFallback);
        case Err(body) => error := ErrorFrom(body, TypesFallback);
      }
    }

    /** `loadControllers`: the same for the controller options. */
    method LoadControllers(response: Response<PageData<Controller>>)
      modifies this
      ensures requests == old(requests) + [ListControllers(0, 100, "")]
      ensures error == OptionsError(old(error), response, ControllersFallback)
      ensures response.Ok? && response.data.Page? ==>
        controllers == response.data.content && error == old(error)
      ensures response.Ok? && response.data.Missing? ==>
        controllers == old(controllers) && error == ErrorFrom(ErrorBody(None, None), ControllersFallback)
      ensures response.Err? ==>
        controllers == old(controllers) && error == ErrorFrom(response.body, ControllersFallback)
      ensures event == old(event) && eventTypes == old(eventTypes) && loading == old(loading)
      ensures navigatedTo == old(navigatedTo)
    {
      requests := requests + [ListControllers(0, 100, "")];
      match response {
        case Ok(Page(content, _)) => controllers := content;
        case Ok(Missing) => error := ErrorFrom(ErrorBody(None, None), ControllersFallback);
        case Err(body) => error := ErrorFrom(body, ControllersFallback);
      }
    }

    /**
     * The mount effect: the event is fetched only when an id is bound; the event types and
     * the controllers for the selects are always fetched, in that order.
     */
    method Mount(eventResponse: Response<StoredEvent>, typesResponse: Response<PageData<EventType>>,
                 controllersResponse: Response<PageData<Controller>>)
      modifies this
      ensures Truthy(id) ==> requests == old(requests) + [EventCall(Fetch(id.value)), ListEventTypes(0, 100, ""), ListControllers(0, 100, "")]
      ensures !Truthy(id) ==> requests == old(requests) + [ListEventTypes(0, 100, ""), ListControllers(0, 100, "")]
      ensures Truthy(id) ==> event == LoadEventResult(old(event), old(error), eventResponse).0 && !loading
      ensures !Truthy(id) ==> event == old(event) && loading == old(loading)
      ensures typesResponse.Ok? && typesResponse.data.Page? ==> eventTypes == typesResponse.data.content
      ensures !(typesResponse.Ok? && typesResponse.data.Page?) ==> eventTypes == old(eventTypes)
      ensures controllersResponse.Ok? && controllersResponse.data.Page? ==> controllers == controllersResponse.data.content
      ensures !(controllersResponse.Ok? && controllersResponse.data.Page?) ==> controllers == old(controllers)
      ensures var afterEvent :=
                if Truthy(id) then LoadEventResult(old(event), old(error), eventResponse).1 else old(error);
              error == OptionsError(OptionsError(afterEvent, typesResponse, TypesFallback),
                                    controllersResponse, ControllersFallback)
      ensures navigatedTo == old(navigatedTo)
    {
      if Truthy(id) {
        LoadEvent(eventResponse);
      }
      LoadEventTypes(typesResponse);
      LoadControllers(controllersResponse);
    }

    /** An input's change event: only the named field changes. */
    method HandleChange(name: Field, value: string)
      modifies this
      ensures event == old(event).With(name, value)
      ensures error == old(error) && loading == old(loading) && requests == old(requests)
      ensures eventTypes == old(eventTypes) && controllers == old(controllers)
      ensures navigatedTo == old(navigatedTo)
    {
      event := event.With(name, value);
    }

    /**
     * Submission: the payload (time in server form) is sent as an update when an id is
     * bound and as a create otherwise; success navigates to the event list, failure sets
     * the error; `loading` ends false either way.
     */
    method HandleSubmit(response: Response<()>)
      modifies this
      ensures requests == old(requests) + [EventCall(SaveCall(id, Payload(old(event))))]
      ensures response.Ok? ==> navigatedTo == Some(ListRoute) && error == old(error)
      ensures response.Err? ==>
        navigatedTo == old(navigatedTo) && error == ErrorFrom(response.body, SaveFallback)
      ensures !loading && event == old(event)
      ensures eventTypes == old(eventTypes) && controllers == old(controllers)
    {
      loading := true;
      requests := requests + [EventCall(SaveCall(id, Payload(event)))];
      match response {
        case Ok(_) => navigatedTo := Some(ListRoute);
        case Err(body) => error := ErrorFrom(body, SaveFallback);
      }
      loading := false;
    }

    /** Closing the alert. */
    method DismissError()
      modifies this
      ensures error == NoError
      ensures event == old(event) && loading == old(loading) && requests == old(requests)
      ensures eventTypes == old(eventTypes) && controllers == old(controllers)
      ensures navigatedTo == old(navigatedTo)
    {
      error := NoError;
    }
  }
}
