# Event control panel — a Dafny model

This project models the browser-side logic of the event control panel, a React front end
over a REST backend for vehicle controllers, the event types they report and the events
themselves. It covers these parts of the panel:

- the three paginated, sortable list screens: events, event types and controllers;
- the three create/edit forms: event, controller and event type;
- the statistics screen, which counts events per date;
- the authentication block: the auth service with its default-header map, the sidebar
  token, the login modal and the registration modal.

Each screen is a class whose fields are the component's state. Each handler is a method.
An asynchronous backend call is not performed. The handler that issues it takes the
call's outcome as a parameter: an `Http.Response`, which is either `Ok(data)` or
`Err({code?, message?})`. Every call made is appended to a `requests` (or `calls`) field,
so "which request went out, with which parameters" can be stated. The pure logic sits in
functions with lemmas beside them:

- the `"field,order"` sort string, its toggle and its indicator arrow (`Sorting`);
- the JavaScript `split`, first-occurrence `replace`, `String(n)` and `padStart`
  (`Strings`);
- the date-time conversions of the event form (`EventForm`);
- the group-by-date count of the statistics screen (`EventStatistics`);
- `setToken` over the header map (`AuthService`).

React's effect scheduling is modelled explicitly. A list screen records in `effectDeps`
the dependency tuple its load effect last ran with. `LoadDue()` holds exactly when the
current tuple differs from it, which is React's dependency comparison.

- Page, size and sort handlers make a load due from a settled screen.
- Filter edits never do.
- On the event list, lowering the search flag inside the effect is itself a dependency
  change. So a search or a first render loads twice: `EventList.EventList.RunEffect`
  ensures `LoadDue() <==> old(shouldSearch)`.

Where the repository's written design and its code disagree, the model follows the code:

- Clearing the event filters empties only the four text filters. The start and end dates
  are kept, although the design says all filters are reset.
- A failed logout keeps the sidebar's token, so the menu still offers "log out". The
  service has already deleted the `Authorization` header in its `finally`. The design says
  the UI always becomes logged-out.
- The controller list accepts any truthy `content`, not only an array. The other two lists
  require an array (`Http.LoadsAgreeOnArrays` states where they agree).
- The token is kept only in component state. Nothing is persisted, and the list screens
  report errors as plain strings, not as `{code, message}`.

## Model

| member | source | states |
|---|---|---|
| Js.OrElse | control-panel/src/components/ControllerForm.js:26-27 | `s \|\| fallback` is the string when it is truthy and the fallback otherwise; a non-empty fallback gives a non-empty result |
| Strings.Split | control-panel/src/components/EventList.js:77 | `split` yields at least one piece; the first piece is the longest separator-free prefix, followed by the separator or the end |
| Strings.JoinSplit | control-panel/src/components/EventList.js:77 | joining the pieces of `split` with the separator gives back the string |
| Strings.SplitAfterFirst | control-panel/src/components/EventList.js:84 | a separator-free prefix followed by the separator is the first piece, and the rest splits on its own |
| Strings.ReplaceFirst | control-panel/src/components/EventForm.js:115 | `replace` with a one-character pattern keeps the length and leaves a string without the pattern unchanged |
| Strings.ReplaceFirstAt | control-panel/src/components/EventForm.js:115 | only the first occurrence is replaced: the pattern-free prefix, the replacement, then the rest unchanged |
| Strings.ReplaceFirstRoundTrip | control-panel/src/components/EventForm.js:115 | swapping the first `a` for `b` and then the first `b` back restores the string, when no `b` precedes the first `a` |
| Strings.NatToString | control-panel/src/components/EventForm.js:78 | `String(n)` is a non-empty string of digits that starts with `0` only for 0 |
| Strings.ParseNatToString | control-panel/src/components/EventForm.js:77-82 | `String(n)` reads back as `n` |
| Strings.PadStart2 | control-panel/src/components/EventForm.js:78-81 | `padStart(2, '0')` gives at least two characters: zeros, then the string itself |
| Strings.Pad2Digits | control-panel/src/components/EventForm.js:78-81 | for n < 100, `String(n).padStart(2, '0')` is exactly the tens digit and the units digit of n |
| Http.PagesOrZero | control-panel/src/components/EventList.js:39 | `totalPages \|\| 0` is the server's count when present, 0 otherwise |
| Http.ArrayLoad | control-panel/src/components/EventList.js:32-53 | array content replaces the rows and page count; any other body empties the list with 0 pages; a failure keeps the rows and sets only the error |
| Http.TruthyLoad | control-panel/src/components/ControllerList.js:21-43 | any truthy content is taken as it is; a falsy body empties the list; a failure keeps the rows and sets the error |
| Http.LoadsAgreeOnArrays | control-panel/src/components/ControllerList.js:27-33 | both load rules give the same screen except on truthy non-array content |
| Sorting.Toggle | control-panel/src/components/EventList.js:75-81 | the new sort is `field,asc` or `field,desc`, and `desc` exactly when the field is already sorted ascending |
| Sorting.Indicator | control-panel/src/components/EventList.js:83-89 | ▲ iff the field is sorted ascending, ▼ iff it is sorted any other way, empty iff another field is sorted |
| Sorting.ParseSort | control-panel/src/components/EventList.js:77 | a `field,order` string splits back into that field and that order |
| Sorting.ToggleNewField | control-panel/src/components/EventTypeList.js:54-60 | a click on a column that is not sorted starts it ascending |
| Sorting.ToggleSameField | control-panel/src/components/ControllerList.js:54-60 | a click on the column sorted ascending makes it descending, and one on the descending column makes it ascending |
| Sorting.ToggleTwice | control-panel/src/components/EventList.js:75-81 | two clicks on a column restore its sort string; the second click always flips the first's order; three clicks equal one |
| Sorting.IndicatorAfterToggle | control-panel/src/components/EventList.js:75-89 | after a click, the clicked column shows the arrow of its new order and every other column shows none |
| EventList.Filters.With | control-panel/src/components/EventList.js:91-113 | a filter input sets its own value and no other |
| EventList.Cleared | control-panel/src/components/EventList.js:120-124 | clearing empties the four text filters and keeps the start and end dates |
| EventList.EventList.constructor | control-panel/src/components/EventList.js:9-22 | page 0, size 10, sort `eventTime,desc`, no filters, no events, the search flag raised, the first load due |
| EventList.EventList.LoadEvents | control-panel/src/components/EventList.js:32-53 | the page is requested with the staged filters; the screen becomes `ArrayLoad` of the response; `loading` ends false; the page, size, sort and filters stay |
| EventList.EventList.RunEffect | control-panel/src/components/EventList.js:25-30 | the effect loads and lowers the search flag; a load is still due afterwards exactly when the flag had been raised |
| EventList.EventList.DeleteEvent | control-panel/src/components/EventList.js:55-64 | a successful delete reloads the same page; a failed one sets the delete error and keeps the list |
| EventList.EventList.HandlePageChange | control-panel/src/components/EventList.js:66-68 | the page is taken and a load becomes due when it changed |
| EventList.EventList.HandleSizeChange | control-panel/src/components/EventList.js:70-73 | the size is taken, the page goes back to 0, and a load becomes due when either changed |
| EventList.EventList.HandleSortChange | control-panel/src/components/EventList.js:75-81 | the sort becomes `Toggle` of the old one, and a load becomes due when it changed |
| EventList.EventList.SetFilter | control-panel/src/components/EventList.js:91-113 | only the named staged filter changes, and whether a load is due does not change |
| EventList.EventList.SearchClick | control-panel/src/components/EventList.js:115-118 | page 0 and the search flag raised, which makes a load due on a settled screen |
| EventList.EventList.ClearClick | control-panel/src/components/EventList.js:120-127 | the filters become `Cleared`, then it searches like the search button |
| EventList.EventList.DismissError | control-panel/src/components/EventList.js:188-193 | closing the alert empties the error and hides the alert |
| EventTypeList.EventTypeList.constructor | control-panel/src/components/EventTypeList.js:9-15 | page 0, size 10, sort `eventCode,asc`, no rows, the first load due |
| EventTypeList.EventTypeList.LoadEventTypes | control-panel/src/components/EventTypeList.js:21-43 | the page is requested; the screen becomes `ArrayLoad` of the response; `loading` ends false |
| EventTypeList.EventTypeList.RunEffect | control-panel/src/components/EventTypeList.js:17-19 | the effect loads and leaves no load due |
| EventTypeList.EventTypeList.HandleDelete | control-panel/src/components/EventTypeList.js:70-79 | success reloads with the same page, size and sort; failure sets only the delete error |
| EventTypeList.EventTypeList.HandleGenerate | control-panel/src/components/EventTypeList.js:80-86 | success reloads; failure (there is no `catch`) changes nothing but the request log |
| EventTypeList.EventTypeList.HandlePageChange | control-panel/src/components/EventTypeList.js:45-47 | the page is taken and a load becomes due when it changed |
| EventTypeList.EventTypeList.HandleSizeChange | control-panel/src/components/EventTypeList.js:49-52 | the size is taken and the page goes back to 0 |
| EventTypeList.EventTypeList.HandleSortChange | control-panel/src/components/EventTypeList.js:54-60 | the sort becomes `Toggle` of the old one |
| EventTypeList.EventTypeList.DismissError | control-panel/src/components/EventTypeList.js:95-99 | closing the alert empties the error and keeps the rows |
| ControllerList.ControllerList.constructor | control-panel/src/components/ControllerList.js:9-15 | page 0, size 10, sort `serialNumber,asc`, no rows, the first load due |
| ControllerList.ControllerList.LoadControllers | control-panel/src/components/ControllerList.js:21-43 | the page is requested; the screen becomes `TruthyLoad` of the response; `loading` ends false |
| ControllerList.ControllerList.RunEffect | control-panel/src/components/ControllerList.js:17-19 | the effect loads and leaves no load due |
| ControllerList.ControllerList.HandleDelete | control-panel/src/components/ControllerList.js:62-77 | a declined confirmation changes nothing; a confirmed delete reloads on success or sets the delete error on failure, and `loading` ends false |
| ControllerList.ControllerList.HandlePageChange | control-panel/src/components/ControllerList.js:45-47 | the page is taken and a load becomes due when it changed |
| ControllerList.ControllerList.HandleSizeChange | control-panel/src/components/ControllerList.js:49-52 | the size is taken and the page goes back to 0 |
| ControllerList.ControllerList.HandleSortChange | control-panel/src/components/ControllerList.js:54-60 | the sort becomes `Toggle` of the old one |
| ControllerList.ControllerList.DismissError | control-panel/src/components/ControllerList.js:94-98 | closing the alert empties the error and keeps the rows |
| FormSupport.ErrorFrom | control-panel/src/components/ControllerForm.js:24-29 | the error is the body's code and message when they are truthy, and `Unknown Error` and the fallback otherwise; never empty with a non-empty fallback |
| FormSupport.FailureShowsAlert | control-panel/src/components/ControllerForm.js:56-60 | every failure leaves the alert shown |
| FormSupport.WithField | control-panel/src/components/ControllerForm.js:33-36 | the named field takes the value; every other field keeps its presence and value |
| FormSupport.SaveCall | control-panel/src/components/ControllerForm.js:41 | an update exactly when an id is bound, otherwise a create, with the given payload |
| ControllerForm.ControllerForm.constructor | control-panel/src/components/ControllerForm.js:8-12 | `{serialNumber: '', guid: ''}`, no error, nothing loading |
| ControllerForm.ControllerForm.Mount | control-panel/src/components/ControllerForm.js:14-31 | only with an id is the controller fetched; the fetched object replaces the fields, a failure sets the load error; `loading` ends false |
| ControllerForm.ControllerForm.HandleChange | control-panel/src/components/ControllerForm.js:33-36 | the fields become `WithField` of the old ones |
| ControllerForm.ControllerForm.HandleSubmit | control-panel/src/components/ControllerForm.js:38-51 | the call is `SaveCall(id, fields)`; success navigates to `/controllers`, failure sets the save error; `loading` ends false |
| ControllerForm.ControllerForm.DismissError | control-panel/src/components/ControllerForm.js:59-60 | the error becomes `{'', ''}` and the alert is hidden |
| EventTypeForm.EventTypeForm.constructor | control-panel/src/components/EventTypeForm.js:8-12 | `{eventCode: '', comment: ''}`, no error, nothing loading |
| EventTypeForm.EventTypeForm.Mount | control-panel/src/components/EventTypeForm.js:14-31 | only with an id is the event type fetched; the fetched object replaces the fields, a failure sets the load error |
| EventTypeForm.EventTypeForm.HandleChange | control-panel/src/components/EventTypeForm.js:33-36 | the fields become `WithField` of the old ones |
| EventTypeForm.EventTypeForm.HandleSubmit | control-panel/src/components/EventTypeForm.js:38-51 | the call is `SaveCall(id, fields)`; success navigates to `/event-types`, failure sets the save error; `loading` ends false |
| EventTypeForm.EventTypeForm.DismissError | control-panel/src/components/EventTypeForm.js:59-60 | the error becomes `{'', ''}` and the alert is hidden |
| EventForm.FormatDateTime | control-panel/src/components/EventForm.js:74-83 | the result is empty iff there is no time, and it never contains a `T` |
| EventForm.FormatParse | control-panel/src/components/EventForm.js:74-83 | for a valid date of a non-negative year, the formatted `year-MM-DD HH:mm` parses back to the same year, 0-based month, day, hours and minutes |
| EventForm.Display | control-panel/src/components/EventForm.js:168 | the input's value has the same length as the stored time |
| EventForm.ToServer | control-panel/src/components/EventForm.js:113-116 | empty iff the input is empty; a time without `T` is sent unchanged |
| EventForm.DisplayRoundTrip | control-panel/src/components/EventForm.js:113-116 | a stored time without `T`, shown in the input and converted back, is unchanged |
| EventForm.Draft.With | control-panel/src/components/EventForm.js:85-88 | an input's change sets its own field and no other |
| EventForm.Loaded | control-panel/src/components/EventForm.js:34-42 | a fetched event maps to its type's id, its controller's guid, its formatted time and its comment |
| EventForm.Payload | control-panel/src/components/EventForm.js:94-99 | the payload carries the time in server form and the other three fields unchanged |
| EventForm.ResubmitUnchanged | control-panel/src/components/EventForm.js:94-99 | a loaded event submitted untouched sends exactly the loaded fields |
| EventForm.LoadEventResult | control-panel/src/components/EventForm.js:31-50 | a fetched event with both references fills the fields; a missing reference or a failure keeps the fields and sets the event load error |
| EventForm.EventForm.constructor | control-panel/src/components/EventForm.js:10-21 | four empty fields, no options, no error |
| EventForm.EventForm.LoadEvent | control-panel/src/components/EventForm.js:31-50 | the event is fetched; the fields and error become `LoadEventResult`; `loading` ends false |
| EventForm.EventForm.LoadEventTypes | control-panel/src/components/EventForm.js:52-61 | the first 100 event types are requested; the body's content becomes the options; the error becomes `OptionsError` with the types fallback |
| EventForm.EventForm.LoadControllers | control-panel/src/components/EventForm.js:63-72 | the same for the controller options, with the controllers fallback |
| EventForm.OptionsError | control-panel/src/components/EventForm.js:52-61 | an options load with a body keeps the error; a body without data or a failure sets the error with the fallback, so the alert shows |
| EventForm.EventForm.Mount | control-panel/src/components/EventForm.js:23-29 | the event is fetched only with an id; the types and controllers are always fetched, in that order; the error is what the three loads leave, each later failure overwriting the earlier one |
| EventForm.EventForm.HandleChange | control-panel/src/components/EventForm.js:85-88 | the fields become `With` of the old ones |
| EventForm.EventForm.HandleSubmit | control-panel/src/components/EventForm.js:90-111 | the call is `SaveCall(id, Payload(fields))`; success navigates to `/events`, failure sets the save error; `loading` ends false |
| EventForm.EventForm.DismissError | control-panel/src/components/EventForm.js:121-125 | the error becomes `{'', ''}` |
| EventStatistics.DatePrefix | control-panel/src/components/EventStatistics.js:29 | the date is the longest prefix of the time without a `T`, followed by the first `T` or the end |
| EventStatistics.Dates | control-panel/src/components/EventStatistics.js:29 | the date of every event, in input order |
| EventStatistics.Tabulate | control-panel/src/components/EventStatistics.js:37-40 | one entry per key, in key order, with the key's count |
| EventStatistics.TallyDistinct | control-panel/src/components/EventStatistics.js:27-41 | no two entries share a date |
| EventStatistics.TallyCovers | control-panel/src/components/EventStatistics.js:27-41 | every entry's date is some event's date, and every event's date has an entry |
| EventStatistics.TallyCounts | control-panel/src/components/EventStatistics.js:29-33 | each count is the number of events on that date, and at least 1 |
| EventStatistics.TallyOrder | control-panel/src/components/EventStatistics.js:37-40 | entries appear in the order their dates first occur in the input |
| EventStatistics.TallyEmpty | control-panel/src/components/EventStatistics.js:28-40 | no entries iff no events |
| EventStatistics.TallyTotal | control-panel/src/components/EventStatistics.js:28-35 | the counts sum to the number of events |
| EventStatistics.CountNew | control-panel/src/components/EventStatistics.js:30-33 | a date met for the first time is added as a key with count 1, keeping the counts exact |
| EventStatistics.CountSeen | control-panel/src/components/EventStatistics.js:30-33 | a date met before has a positive count, and one more keeps the counts exact |
| EventStatistics.CountEvent | control-panel/src/components/EventStatistics.js:28-34 | the reducer callback adds a new date with count 1 at the end of the keys, or increments a date already present without moving it |
| EventStatistics.CountByDate | control-panel/src/components/EventStatistics.js:28-35 | after the `reduce`, the keys are the distinct dates in first-occurrence order and each count is that date's number of events |
| EventStatistics.ListEntries | control-panel/src/components/EventStatistics.js:37-40 | the `map` over the keys yields `Tabulate` of the keys |
| EventStatistics.FormatData | control-panel/src/components/EventStatistics.js:27-41 | `formatData` returns `Tally` of the events |
| EventStatistics.EventStatistics.constructor | control-panel/src/components/EventStatistics.js:7-10 | no data, period `2024-01-01T00:00` to `2024-01-31T23:59`, not loading |
| EventStatistics.EventStatistics.SetStartDate | control-panel/src/components/EventStatistics.js:43-45 | only the start date changes |
| EventStatistics.EventStatistics.SetEndDate | control-panel/src/components/EventStatistics.js:47-49 | only the end date changes |
| EventStatistics.EventStatistics.FetchStatistics | control-panel/src/components/EventStatistics.js:12-25 | the period is requested; a list of events replaces the data with its `Tally`; a failure or a non-list body keeps the data; `loading` ends false |
| AuthService.WithToken | control-panel/src/services/authService.js:20-26 | `Authorization` is present iff the token is truthy, then `Bearer <token>`; every other header keeps its presence and value |
| AuthService.WithTokenOnlyAuthorization | control-panel/src/services/authService.js:20-26 | header maps that differ only in `Authorization` agree after `setToken` |
| AuthService.WithTokenIdempotent | control-panel/src/services/authService.js:20-26 | setting the same token twice equals setting it once |
| AuthService.WithTokenLastWins | control-panel/src/services/authService.js:20-26 | only the last token set matters |
| AuthService.AuthService.SetToken | control-panel/src/services/authService.js:20-26 | the headers become `WithToken` of the old ones |
| AuthService.AuthService.Login | control-panel/src/services/authService.js:6-8 | posts `/auth` with the credentials and hands the outcome back; headers unchanged |
| AuthService.AuthService.Register | control-panel/src/services/authService.js:10-12 | posts `/registration` and hands the outcome back; headers unchanged |
| AuthService.AuthService.Logout | control-panel/src/services/authService.js:14-18 | posts `/logout`, always deletes `Authorization`, and hands the outcome, failure included, back |
| Auth.Menu | control-panel/src/components/Auth.js:29-44 | "log out" is offered iff the token is truthy; "log in" and "register" iff it is not; no item twice |
| Auth.Auth.constructor | control-panel/src/components/Auth.js:9-11 | no token and both modals closed, so the menu offers log in and register |
| Auth.Auth.OpenLogin | control-panel/src/components/Auth.js:31 | the login modal opens; nothing else changes |
| Auth.Auth.OpenRegister | control-panel/src/components/Auth.js:34 | the registration modal opens; nothing else changes |
| Auth.Auth.CloseLogin | control-panel/src/components/Auth.js:48 | the login modal closes; nothing else changes |
| Auth.Auth.CloseRegister | control-panel/src/components/Auth.js:53 | the registration modal closes; nothing else changes |
| Auth.Auth.HandleLoginSuccess | control-panel/src/components/Auth.js:13-15 | the token becomes the given one; "log out" is offered iff it is truthy |
| Auth.Auth.HandleLogout | control-panel/src/components/Auth.js:17-24 | the header is deleted either way; success forgets the token and offers log in; failure keeps the token, leaving the screen and the headers out of step |
| LoginModal.LoginModal.constructor | control-panel/src/components/LoginModal.js:6-8 | empty username, password and error |
| LoginModal.LoginModal.Edit | control-panel/src/components/LoginModal.js:37-47 | an input sets its own value and no other |
| LoginModal.LoginModal.HandleLogin | control-panel/src/components/LoginModal.js:10-21 | success sets the token, reports it and closes the modal, in that order, and leaves screen and headers in step, without resetting the error; failure sets the credentials error, sets no token and keeps the modal open |
| RegisterModal.RegisterModal.constructor | control-panel/src/components/RegisterModal.js:6-10 | all inputs, the error and the success line empty |
| RegisterModal.RegisterModal.Edit | control-panel/src/components/RegisterModal.js:48-67 | an input sets its own value and no other |
| RegisterModal.RegisterModal.HandleRegister | control-panel/src/components/RegisterModal.js:12-30 | differing passwords set the mismatch error and post nothing; success sets the success line and empties the inputs and the error; failure sets the error and keeps the inputs and the success line |

## Left out

- Asynchronous ordering and React's batching: every request completes at once, inside the handler that issues it, and its outcome is a parameter.
- The service modules for events, event types and controllers: each call they make is an outcome passed to the handler that calls it and an entry in the request log.
- `Date` parsing and time zones in `formatDateTime`: the model formats already decomposed local fields (year, 0-based month, day, hours, minutes).
- EventForm.FormatParse: holds only for non-negative years; a negative year prints with a `-` that `ParseDateTime` does not read.
- The `toLocaleString` display of times in the event table.
- `console` logging, and the `localStorage` read of the event list, whose only use is to decide whether the edit/delete column is rendered (presentation); `EventList.EventList.DeleteEvent` is modelled as if that column were shown.
- `window.confirm`: it is a boolean parameter of the controller list's delete.
- The HTML `required` attribute on the inputs of the login and registration modals and of the three entity forms (serial number, event code, event type, controller, event time), which the browser checks before the submit handler runs: `ControllerForm.ControllerForm.HandleSubmit`, `EventTypeForm.EventTypeForm.HandleSubmit`, `EventForm.EventForm.HandleSubmit`, `LoginModal.LoginModal.HandleLogin` and `RegisterModal.RegisterModal.HandleRegister` also accept empty inputs.
- The statistics of an event whose `eventTime` is `null`, where `split` throws: event times are strings in the model.
- Presentation: JSX, the chart, the navigation bar, the sidebar, the server-error card and the alert component beyond "shown iff the message is non-empty".
- The application shell's health check (a network call raced against a timer) and its route table.
- The page-number buttons' range and the size options of the select: any natural number is accepted.
- EventStatistics.FormatData: equals `Tally` only for dates that are neither integer-like nor the name of an `Object.prototype` member (`constructor`, `toString`, `__proto__`, ...); for those the source's plain `{}` accumulator yields a `NaN` count, drops the entry or reorders it. Every `YYYY-MM-DD` prefix of a backend time meets the condition.
- EventStatistics.CountByDate: the accumulator is a map with own keys only, so the same condition on the dates applies: an inherited member is not seen by the model's `in` test, and `Object.keys` order is first insertion only for keys that are not integer-like.
- EventStatistics.CountEvent: `date !in acc` models `!acc[date]` for a date without an own count; for a date naming an `Object.prototype` member, `acc[date]` is an inherited function, which the model does not represent.
- EventStatistics.TallyOrder: states first-insertion order, while `Object.keys` lists integer-like keys first; a date prefix of a backend time (`YYYY-MM-DD`) is never integer-like, so the two agree on real data.
