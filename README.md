# Smart Scheduler client state, in Dafny

A model of the client-side state of the Smart Scheduler event UI, a React app.
Users create, list, filter, archive or restore, and delete calendar events kept
on a remote REST server. The model covers three parts:

- **The data model** (`types.dfy`, module `Types`). `Event` and its creation
  projection `CreateEventData` become datatypes. `Category` is the closed
  variant `Work | Personal | Other`. `notes` is optional. `status` is an opaque
  string.
- **The event form** (`event_form.dfy`, module `EventForm`). Class `Form`
  holds the draft (`formData`), the per-field error map (`errors`) and a log of
  the calls made to the `onSubmit` callback (`submitted`).
  - `ValidateForm` rebuilds the error map from nothing.
  - `HandleSubmit` calls back and resets the draft only when the draft is valid.
  - `HandleChange` edits one field and clears only that field's error.
  - The title check uses a model of ECMAScript `String.prototype.trim`
    (`LeadingWhitespace`, `TrailingWhitespaceStart`, `Trim`) over the exact set of code points that
    the standard counts as WhiteSpace or LineTerminator.
- **The root view** (`home.dfy`, module `Home`). Two layers:
  - Pure functions for the list transforms:
    - delete is an order-preserving filter (`RemoveById`);
    - archive is a status patch (`PatchStatus`);
    - the category view is `FilteredEvents`;
    - the sort after a create is `SortByKey`;
    - the page's choice of spinner, empty panel or list is `ViewOf`.
  - Class `HomeState`, holding `events`, `loading`, `showForm` and
    `categoryFilter`. Its handler methods call the pure functions. Each
    remote call is a parameter of type `Api.Response<T>`: either `Ok(value)`
    or `Failed`. Each handler records the requests it issues in `requests`
    and returns the notification it would show (a `Toast` with the fixed
    source text).

`sequences.dfy` (module `Sequences`) holds the shared pieces:
- the generic `Filter` (`Array.prototype.filter`);
- the subsequence relation that specifies `Filter`;
- a lexicographic string order, used as the sort key.

`api.dfy` (module `Api`) holds the datatypes for call outcomes and requests.

## Model

| member | source | states |
|---|---|---|
| `Types.CategoryName` | src/types/event.ts:7 | a category's name is one of "Work", "Personal", "Other", and never "All" |
| `Types.ParseCategory` | src/types/event.ts:7 | a name parses back to the category that has it; a string that is no category's name parses to None |
| `Types.CategoryNameInjective` | src/types/event.ts:7 | different categories have different names, so comparing names (as the filter does) compares categories |
| `Types.OmitRoundTrip` | src/types/event.ts:11 | an Event is exactly its CreateEventData plus id, category and status |
| `Types.ProjectionRoundTrip` | src/types/event.ts:1-11 | dropping the server fields of an event built from creation data gives that data back unchanged |
| `Sequences.Filter` | src/Home.tsx:56 | the filtered list is no longer than the input, and each element it holds is in the input and satisfies the predicate |
| `Sequences.FilterIsSubsequence` | src/Home.tsx:56 | a filtered list keeps the relative order of the input |
| `Sequences.FilterCount` | src/Home.tsx:85 | an element satisfying the predicate is kept exactly as many times as it occurs; any other element is dropped |
| `Sequences.FilterKeepsAll` | src/Home.tsx:56 | when every element satisfies the predicate, the filter returns the input unchanged |
| `Sequences.FilterDropsAll` | src/Home.tsx:85 | when no element satisfies the predicate, the filter returns the empty list |
| `Sequences.LexLeqReflexive` | src/Home.tsx:39-43 | the key order puts every string no later than itself |
| `Sequences.LexLeqTotal` | src/Home.tsx:39-43 | any two strings are comparable in the key order |
| `Sequences.LexLeqAntisymmetric` | src/Home.tsx:39-43 | two strings that are each no later than the other are equal |
| `Sequences.LexLeqTransitive` | src/Home.tsx:39-43 | the key order is transitive |
| `EventForm.LeadingWhitespace` | src/components/EventForm.tsx:18 | the cut made at the start of the title covers only whitespace and stops at the first non-whitespace character |
| `EventForm.TrailingWhitespaceStart` | src/components/EventForm.tsx:18 | the cut made at the end of the title covers only whitespace and stops after the last non-whitespace character |
| `EventForm.Trim` | src/components/EventForm.tsx:18 | the trimmed title is empty exactly when every character of the title is whitespace; otherwise it starts and ends with a non-whitespace character |
| `EventForm.SetField` | src/components/EventForm.tsx:42 | after an edit, the edited field holds the new value and the other three fields hold their old values |
| `EventForm.ErrorsFromChecks` | src/components/EventForm.tsx:16-28 | a map with exactly the missing fields as keys, each holding its fixed message, is the validation result |
| `EventForm.ValidationErrorsExactly` | src/components/EventForm.tsx:15-29 | the error map has a title entry iff the title is blank, a date entry iff the date is empty, and a time entry iff the time is empty; each entry holds its fixed message; there is never a notes entry |
| `EventForm.ValidIffNoErrors` | src/components/EventForm.tsx:28-29 | validation succeeds exactly when the error map it builds is empty |
| `EventForm.ValidIffRequiredPresent` | src/components/EventForm.tsx:18-26 | a draft is valid iff its title has a non-whitespace character and its date and time are non-empty |
| `EventForm.WhitespaceOnlyTitleFails` | src/components/EventForm.tsx:18-19 | a whitespace-only title fails validation with "Title is required" |
| `EventForm.UntrimmedDateAndTimeCount` | src/components/EventForm.tsx:21-26 | date and time are not trimmed: a single space in each counts as present |
| `EventForm.NotesNeverValidated` | src/components/EventForm.tsx:16-28 | changing the notes never changes the validation result or the error map |
| `EventForm.Form.constructor` | src/components/EventForm.tsx:7-13 | the form starts with an all-empty draft, no errors and no callback calls |
| `EventForm.Form.ValidateForm` | src/components/EventForm.tsx:15-30 | the error map is replaced by the validation errors of the current draft, with earlier errors discarded; the result is true iff the draft is valid; the draft is left unchanged |
| `EventForm.Form.HandleSubmit` | src/components/EventForm.tsx:32-39 | valid draft: onSubmit is called exactly once with that draft, then the draft is reset to empty and the errors cleared. Invalid draft: onSubmit is not called, the draft is unchanged and the errors are the validation errors |
| `EventForm.Form.HandleChange` | src/components/EventForm.tsx:41-46 | the edited field takes the value and the others keep theirs; that field's error is gone; every other field's error is unchanged, present or absent |
| `Home.RemoveById` | src/Home.tsx:56 | no event left after a delete has the deleted id |
| `Home.RemoveByIdSpec` | src/Home.tsx:55-56 | after a delete, no event has the id; every event with another id is kept as often as it occurred, in the same relative order |
| `Home.RemoveAbsentId` | src/Home.tsx:56 | deleting an id that no event carries leaves the list unchanged |
| `Home.PatchStatus` | src/Home.tsx:67-71 | an archive patch keeps the length; each entry differs from the old one at most in status; the status is the server's for entries with the id and the old one for the rest |
| `Home.PatchStatusSpec` | src/Home.tsx:66-71 | entries with another id are identical after the patch; entries with the id are the old entry with only the status replaced |
| `Home.PatchStatusIdempotent` | src/Home.tsx:66-71 | applying the same archive answer twice gives the same list as applying it once |
| `Home.ArchiveMessage` | src/Home.tsx:73-75 | the message is "Event archived" iff the returned status is "archived", and "Event restored" otherwise |
| `Home.FilteredEvents` | src/Home.tsx:82-85 | under "All" the view is the event list itself; under any other filter, every shown event's category name equals the filter |
| `Home.FilteredEventsSpec` | src/Home.tsx:82-85 | under a category filter the view is the order-preserving subsequence of exactly the events of that category, each kept as often as it occurs |
| `Home.UnknownFilterShowsNothing` | src/Home.tsx:82-85 | a filter that is neither "All" nor a category name shows no event |
| `Home.NotLaterTotal` | src/Home.tsx:39-43 | the (date, time) sort key puts any two events in some order |
| `Home.NotLaterTransitive` | src/Home.tsx:39-43 | the (date, time) sort key is transitive |
| `Home.Insert` | src/Home.tsx:39-43 | inserting into the sorted list adds exactly the one new event |
| `Home.InsertChronological` | src/Home.tsx:39-43 | inserting into a list sorted by (date, time) keeps it sorted |
| `Home.SortByKey` | src/Home.tsx:39-43 | the sorted list is a permutation of the fetched list |
| `Home.SortByKeySpec` | src/Home.tsx:36-44 | the list shown after a create is a permutation of the re-fetched list, non-decreasing in (date, time) |
| `Home.ViewOf` | src/Home.tsx:149-179 | spinner iff loading; empty panel iff not loading and the unfiltered list is empty; otherwise the filtered events |
| `Home.FilterHidingAllGivesEmptyList` | src/Home.tsx:158 | the empty panel depends on the unfiltered list: a filter that hides every event shows an empty list, not the empty panel |
| `Home.HomeState.constructor` | src/Home.tsx:10-13 | the initial state: no events, loading, form closed, filter "All" |
| `Home.HomeState.LoadEvents` | src/Home.tsx:19-30 | loading always ends false; success replaces the events with the fetched list in server order; failure keeps the events and gives the load-failure toast |
| `Home.HomeState.HandleAddEvent` | src/Home.tsx:32-51 | create is issued, and a re-fetch only after it succeeds. Both succeed: the events become the re-fetched list sorted by key, and the form closes. Either fails: the events and form flag are unchanged and the error toast is given |
| `Home.HomeState.HandleDelete` | src/Home.tsx:53-62 | on success the events are the old list with the id removed, with no re-fetch; on failure they are unchanged; the toast follows the outcome |
| `Home.HomeState.HandleArchive` | src/Home.tsx:64-80 | on success the events are the old list with the server's status patched onto the id, and the archive/restore message is given; on failure the events are unchanged and "Something went wrong" is given |
| `Home.HomeState.ToggleForm` | src/Home.tsx:107 | the header button flips showForm |
| `Home.HomeState.CancelForm` | src/Home.tsx:120 | cancel closes the form |
| `Home.HomeState.SetCategoryFilter` | src/Home.tsx:135 | the select sets the filter value |
| `Home.SubmitForm` | src/Home.tsx:118-121 | form submission wired to handleAddEvent. A valid draft is logged as the one onSubmit call and sent as the create request; the draft and errors are cleared even when the server call fails; the notice, events and form flag follow the two call outcomes. An invalid draft reaches no server call, keeps the draft and shows its validation errors. Loading and the filter never change |
| `Home.MountWithFailedFetch` | src/Home.tsx:15-30 | the first load fails: loading becomes false, the events stay empty and the empty panel shows |
| `Home.MountWithEmptyList` | src/Home.tsx:149-172 | the server returns no events: the empty panel shows, not the list |
| `Home.ArchiveOnlyEvent` | src/Home.tsx:64-75 | archiving the only event with id "1" sets its status to "archived" and shows "Event archived" |

## Left out

- The HTTP transport of src/lib/api.ts (URL, methods, JSON bodies and parsing) is not modelled. Each call is a `Response` parameter that is either `Ok(value)` or `Failed`. Thrown errors and malformed responses all count as `Failed`.
- Asynchrony is not modelled. Each handler is one atomic transition. Overlapping calls and their races, which the source does not coordinate, are out of scope.
- `Home.SortByKey`: compares events by (date, time) as strings, lexicographically. The source compares `new Date(date + " " + time).getTime()`, a library parse to float milliseconds that can be NaN. The string order agrees with time order for the `YYYY-MM-DD` and `HH:MM` values that the form's date and time inputs produce. Stability of the sort is not proved.
- `Home.HomeState.HandleAddEvent`: the event returned by the create call is ignored, as in the source.
- Toasts are modelled only as the returned `Toast` value (kind and text). `console` logging is left out.
- `Home.HomeState.LoadEvents`: on failure the events are left as they were (src/Home.tsx:24-29). They are empty after a failed load only on mount, where they start empty (`Home.MountWithFailedFetch`).
- `Home.ViewOf`: the empty panel is chosen when the UNFILTERED list is empty (src/Home.tsx:158). When a filter hides every event, the list view gets an empty list (`Home.FilterHidingAllGivesEmptyList`). EventList then draws its own placeholder, and src/components/EventList.tsx is not part of this model.
- Error entries cleared by `handleChange` are set to `undefined` in the source. The model removes the key instead. The two readings agree, because `Object.keys` is applied only to the freshly built map in `validateForm`.
- Unmounting the form when `showForm` turns false, which discards its draft, is not modelled.
- src/components/EventCard.tsx and src/components/EventList.tsx are presentational (date-fns formatting, styles, icons) and are not part of this model. src/main.tsx and all JSX and styling are not part of it either.
- `categoryFilter` is kept as the string the select delivers. It is not restricted to the four option values, so an unknown value shows nothing (`Home.UnknownFilterShowsNothing`).
