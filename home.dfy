/** The root view (src/Home.tsx): the event list, the loading and form
    flags, the category filter, the handlers that call the server and the
    choice of what the page shows. */
module Home {
  import opened Types
  import opened Api
  import opened Sequences
  import EventForm

  /** The filter value that shows every category. */
  const AllCategories := "All"

  const LoadFailed := "Failed to load events. Please try again."
  const Created := "Event created successfully!"
  const CreateFailed := "Failed to create event. Please check your input."
  const Deleted := "Event deleted."
  const DeleteFailed := "Failed to delete event."
  const ArchivedMessage := "Event archived"
  const RestoredMessage := "Event restored"
  const ArchiveFailed := "Something went wrong"

  /** A transient notification. */
  datatype Toast = Success(message: string) | Error(message: string)

  // ---------------------------------------------------------------------
  // Delete: `prev.filter((event) => event.id !== id)`

  /** The predicate the delete handler keeps events by. */
  function HasOtherId(id: string): Event -> bool {
    (e: Event) => e.id != id
  }

  function RemoveById(events: seq<Event>, id: string): (r: seq<Event>)
    ensures forall e :: e in r ==> e.id != id
  {
    Filter(events, HasOtherId(id))
  }

  /** After removal no event has the id; every other event is kept as often
      as it occurred and in the same relative order. */
  lemma RemoveByIdSpec(events: seq<Event>, id: string)
    ensures forall i :: 0 <= i < |RemoveById(events, id)| ==> RemoveById(events, id)[i].id != id
    ensures IsSubsequence(RemoveById(events, id), events)
    ensures forall e: Event :: e.id != id ==> multiset(RemoveById(events, id))[e] == multiset(events)[e]
  {
    FilterIsSubsequence(events, HasOtherId(id));
    forall e: Event | e.id != id
      ensures multiset(RemoveById(events, id))[e] == multiset(events)[e]
    {
      FilterCount(events, HasOtherId(id), e);
    }
  }

  /** Deleting an id no event carries changes nothing. */
  lemma RemoveAbsentId(events: seq<Event>, id: string)
    requires forall i :: 0 <= i < |events| ==> events[i].id != id
    ensures RemoveById(events, id) == events
  {
    FilterKeepsAll(events, HasOtherId(id));
  }

  // ---------------------------------------------------------------------
  // Archive: `prev.map((event) => event.id === id ? { ...event, status } : event)`

  /** The list with the status of every event carrying `id` replaced. */
  function PatchStatus(events: seq<Event>, id: string, status: string): (r: seq<Event>)
    ensures |r| == |events|
    ensures forall i :: 0 <= i < |events| ==> r[i].(status := events[i].status) == events[i]
    ensures forall i :: 0 <= i < |events| ==>
      r[i].status == if events[i].id == id then status else events[i].status
  {
    if events == [] then []
    else
      var e := events[0];
      [if e.id == id then e.(status := status) else e] + PatchStatus(events[1..], id, status)
  }

  /** Patching keeps the length, the order and every field but the status;
      events with another id are untouched. */
  lemma PatchStatusSpec(events: seq<Event>, id: string, status: string)
    ensures forall i :: 0 <= i < |events| && events[i].id != id ==> PatchStatus(events, id, status)[i] == events[i]
    ensures forall i :: 0 <= i < |events| && events[i].id == id ==>
      PatchStatus(events, id, status)[i] == events[i].(status := status)
  {
  }

  /** Applying the same server answer twice gives what applying it once gives. */
  lemma PatchStatusIdempotent(events: seq<Event>, id: string, status: string)
    ensures PatchStatus(PatchStatus(events, id, status), id, status) == PatchStatus(events, id, status)
  {
  }

  /** The notification after a successful archive call. */
  function ArchiveMessage(status: string): (m: string)
    ensures m == "Event archived" <==> status == "archived"
    ensures m == "Event archived" || m == "Event restored"
  {
    if status == Archived then ArchivedMessage else RestoredMessage
  }

  // ---------------------------------------------------------------------
  // Category filter

  /** The predicate the category filter keeps events by. */
  function InCategory(filter: string): Event -> bool {
    (e: Event) => CategoryName(e.category) == filter
  }

  /** `filteredEvents`: all events under "All", otherwise those whose category
      name equals the filter value. */
  function FilteredEvents(events: seq<Event>, filter: string): (r: seq<Event>)
    ensures filter == AllCategories ==> r == events
    ensures filter != AllCategories ==> forall e :: e in r ==> CategoryName(e.category) == filter
  {
    if filter == AllCategories then events else Filter(events, InCategory(filter))
  }

  /** Filtering by a category keeps exactly the events of that category,
      each as often as it occurs, in their relative order. */
  lemma FilteredEventsSpec(events: seq<Event>, c: Category)
    ensures IsSubsequence(FilteredEvents(events, CategoryName(c)), events)
    ensures forall e ::
      multiset(FilteredEvents(events, CategoryName(c)))[e] == (if e.category == c then multiset(events)[e] else 0)
  {
    var name := CategoryName(c);
    FilterIsSubsequence(events, InCategory(name));
    forall e
      ensures multiset(FilteredEvents(events, name))[e] == if e.category == c then multiset(events)[e] else 0
    {
      FilterCount(events, InCategory(name), e);
      if CategoryName(e.category) == name {
        CategoryNameInjective(e.category, c);
      }
    }
  }

  /** A filter value that is neither "All" nor a category name shows nothing. */
  lemma UnknownFilterShowsNothing(events: seq<Event>, filter: string)
    requires filter != AllCategories && ParseCategory(filter) == None
    ensures FilteredEvents(events, filter) == []
  {
  }

  // ---------------------------------------------------------------------
  // Sort after create: ascending by date, then time

  /** `a` is scheduled no later than `b`: the pair (date, time) compared
      lexicographically, dates first. */
  predicate NotLater(a: Event, b: Event) {
    if a.date == b.date then LexLeq(a.time, b.time) else LexLeq(a.date, b.date)
  }

  lemma NotLaterTotal(a: Event, b: Event)
    ensures NotLater(a, b) || NotLater(b, a)
  {
    LexLeqTotal(a.date, b.date);
    LexLeqTotal(a.time, b.time);
  }

  lemma NotLaterTransitive(a: Event, b: Event, c: Event)
    requires NotLater(a, b) && NotLater(b, c)
    ensures NotLater(a, c)
  {
    if a.date == b.date && b.date == c.date {
      LexLeqTransitive(a.time, b.time, c.time);
    } else {
      LexLeqReflexive(a.date);
      LexLeqReflexive(b.date);
      LexLeqTransitive(a.date, b.date, c.date);
      if a.date == c.date {
        LexLeqAntisymmetric(a.date, b.date);
      }
    }
  }

  predicate IsChronological(s: seq<Event>) {
    forall i, j :: 0 <= i < j < |s| ==> NotLater(s[i], s[j])
  }

  /** `x` placed before the first event it is not later than. */
  function Insert(x: Event, s: seq<Event>): (r: seq<Event>)
    ensures multiset(r) == multiset(s) + multiset{x}
    ensures |r| == |s| + 1
  {
    if s == [] then [x]
    else if NotLater(x, s[0]) then [x] + s
    else
      assert s == [s[0]] + s[1..];
      [s[0]] + Insert(x, s[1..])
  }

  lemma {:induction false} InsertChronological(x: Event, s: seq<Event>)
    requires IsChronological(s)
    ensures IsChronological(Insert(x, s))
  {
    if s == [] {
    } else if NotLater(x, s[0]) {
      forall j | 0 < j < |s| ensures NotLater(x, s[j]) {
        NotLaterTransitive(x, s[0], s[j]);
      }
    } else {
      var t := s[1..];
      InsertChronological(x, t);
      var r := Insert(x, t);
      NotLaterTotal(x, s[0]);
      forall k | 0 <= k < |r| ensures NotLater(s[0], r[k]) {
        assert r[k] in multiset(t) + multiset{x};
        if r[k] != x {
          assert r[k] in t;
        }
      }
    }
  }

  /** The re-fetched list rearranged in date-and-time order (an insertion sort). */
  function SortByKey(s: seq<Event>): (r: seq<Event>)
    ensures multiset(r) == multiset(s)
  {
    if s == [] then []
    else
      assert s == [s[0]] + s[1..];
      Insert(s[0], SortByKey(s[1..]))
  }

  /** The list set after a create is a permutation of the fetched list,
      non-decreasing in (date, time). */
  lemma {:induction false} SortByKeySpec(s: seq<Event>)
    ensures multiset(SortByKey(s)) == multiset(s)
    ensures IsChronological(SortByKey(s))
  {
    if s != [] {
      SortByKeySpec(s[1..]);
      InsertChronological(s[0], SortByKey(s[1..]));
    }
  }

  // ---------------------------------------------------------------------
  // What the page shows below the filter

  datatype View = Spinner | EmptyPanel | ListOf(shown: seq<Event>)

  /** The spinner while loading, else the empty panel when there are no
      events at all (the unfiltered list), else the filtered list. */
  function ViewOf(loading: bool, events: seq<Event>, filter: string): (v: View)
    ensures v == Spinner <==> loading
    ensures v == EmptyPanel <==> !loading && |events| == 0
    ensures v.ListOf? ==> v.shown == FilteredEvents(events, filter) && |events| > 0
  {
    if loading then Spinner
    else if |events| == 0 then EmptyPanel
    else ListOf(FilteredEvents(events, filter))
  }

  /** The empty panel is chosen on the unfiltered list: a filter that hides
      every event gives an empty list view, not the empty panel. */
  lemma FilterHidingAllGivesEmptyList(events: seq<Event>, c: Category)
    requires |events| > 0
    requires forall i :: 0 <= i < |events| ==> events[i].category != c
    ensures ViewOf(false, events, CategoryName(c)) == ListOf([])
  {
    forall i | 0 <= i < |events| ensures !InCategory(CategoryName(c))(events[i]) {
      if CategoryName(events[i].category) == CategoryName(c) {
        CategoryNameInjective(events[i].category, c);
      }
    }
    FilterDropsAll(events, InCategory(CategoryName(c)));
  }

  // ---------------------------------------------------------------------
  // The component state

  class HomeState {
    var events: seq<Event>
    var loading: bool
    var showForm: bool
    var categoryFilter: string
    /** The remote calls issued so far, in order. */
    var requests: seq<Request>

    /** The state before the mount effect runs. */
    constructor ()
      ensures events == [] && loading && !showForm && categoryFilter == AllCategories && requests == []
    {
      events := [];
      loading := true;
      showForm := false;
      categoryFilter := AllCategories;
      requests := [];
    }

    function CurrentView(): View
      reads this
    {
      ViewOf(loading, events, categoryFilter)
    }

    /** loadEvents: fetches the whole list; `loading` is cleared on either outcome. */
    method LoadEvents(fetched: Response<seq<Event>>) returns (notice: Option<Toast>)
      modifies this
      ensures !loading
      ensures events == if fetched.Ok? then fetched.value else old(events)
      ensures notice == if fetched.Ok? then None else Some(Error(LoadFailed))
      ensures requests == old(requests) + [FetchEvents]
      ensures showForm == old(showForm) && categoryFilter == old(categoryFilter)
    {
      loading := true;
      requests := requests + [FetchEvents];
      if fetched.Ok? {
        events := fetched.value;
        notice := None;
      } else {
        notice := Some(Error(LoadFailed));
      }
      loading := false;
    }

    /** handleAddEvent: creates the event, re-fetches the whole list and
        shows it sorted by date and time, then closes the form. If either
        call fails nothing changes; the fetch is issued only after a
        successful create. */
    method HandleAddEvent(data: CreateEventData, created: Response<Event>, refetched: Response<seq<Event>>)
      returns (notice: Toast)
      modifies this
      ensures requests == old(requests) + [CreateEvent(data)] + (if created.Ok? then [FetchEvents] else [])
      ensures created.Ok? && refetched.Ok? ==>
        events == SortByKey(refetched.value) && !showForm && notice == Success(Created)
      ensures !(created.Ok? && refetched.Ok?) ==>
        events == old(events) && showForm == old(showForm) && notice == Error(CreateFailed)
      ensures loading == old(loading) && categoryFilter == old(categoryFilter)
    {
      requests := requests + [CreateEvent(data)];
      if created.Failed? {
        return Error(CreateFailed);
      }
      requests := requests + [FetchEvents];
      if refetched.Failed? {
        return Error(CreateFailed);
      }
      events := SortByKey(refetched.value);
      notice := Success(Created);
      showForm := false;
    }

    /** handleDelete: on success drops every event with the id locally, with no re-fetch. */
    method HandleDelete(id: string, deleted: Response<()>) returns (notice: Toast)
      modifies this
      ensures requests == old(requests) + [DeleteEvent(id)]
      ensures events == if deleted.Ok? then RemoveById(old(events), id) else old(events)
      ensures notice == if deleted.Ok? then Success(Deleted) else Error(DeleteFailed)
      ensures loading == old(loading) && showForm == old(showForm) && categoryFilter == old(categoryFilter)
    {
      requests := requests + [DeleteEvent(id)];
      if deleted.Ok? {
        events := RemoveById(events, id);
        notice := Success(Deleted);
      } else {
        notice := Error(DeleteFailed);
      }
    }

    /** handleArchive: on success sets the status the server answered on the
        events with the requested id and announces archive or restore. */
    method HandleArchive(id: string, reply: Response<ArchiveReply>) returns (notice: Toast)
      modifies this
      ensures requests == old(requests) + [ArchiveEvent(id)]
      ensures events == if reply.Ok? then PatchStatus(old(events), id, reply.value.status) else old(events)
      ensures notice == if reply.Ok? then Success(ArchiveMessage(reply.value.status)) else Error(ArchiveFailed)
      ensures loading == old(loading) && showForm == old(showForm) && categoryFilter == old(categoryFilter)
    {
      requests := requests + [ArchiveEvent(id)];
      match reply
      case Ok(r) =>
        events := PatchStatus(events, id, r.status);
        notice := Success(ArchiveMessage(r.status));
      case Failed =>
        notice := Error(ArchiveFailed);
    }

    /** The header button: opens or closes the form. */
    method ToggleForm()
      modifies this`showForm
      ensures showForm == !old(showForm)
    {
      showForm := !showForm;
    }

    /** The form's cancel callback. */
    method CancelForm()
      modifies this`showForm
      ensures !showForm
    {
      showForm := false;
    }

    /** The category select. */
    method SetCategoryFilter(filter: string)
      modifies this`categoryFilter
      ensures categoryFilter == filter
    {
      categoryFilter := filter;
    }
  }

  /** The form's onSubmit wired to handleAddEvent. The form clears its draft
      as soon as the callback is called, without waiting for the server, so
      after a failed create the form stays open with an empty draft. */
  method SubmitForm(form: EventForm.Form, home: HomeState, created: Response<Event>, refetched: Response<seq<Event>>)
    returns (notice: Option<Toast>)
    modifies form, home
    ensures form.Valid()
    ensures home.loading == old(home.loading) && home.categoryFilter == old(home.categoryFilter)
    ensures EventForm.IsValid(old(form.formData)) ==>
      && form.formData == EventForm.EmptyDraft
      && form.errors == map[]
      && form.submitted == old(form.submitted) + [old(form.formData)]
      && home.requests == old(home.requests) + [CreateEvent(old(form.formData))] + (if created.Ok? then [FetchEvents] else [])
      && (created.Ok? && refetched.Ok? ==>
            !home.showForm && home.events == SortByKey(refetched.value) && notice == Some(Success(Created)))
      && (!(created.Ok? && refetched.Ok?) ==>
            home.showForm == old(home.showForm) && home.events == old(home.events) && notice == Some(Error(CreateFailed)))
    ensures !EventForm.IsValid(old(form.formData)) ==>
      && notice == None
      && form.formData == old(form.formData)
      && form.errors == EventForm.ValidationErrors(form.formData)
      && form.submitted == old(form.submitted)
      && home.requests == old(home.requests) && home.events == old(home.events) && home.showForm == old(home.showForm)
  {
    var sent := form.HandleSubmit();
    if sent.Some? {
      var t := home.HandleAddEvent(sent.value, created, refetched);
      notice := Some(t);
    } else {
      notice := None;
    }
  }

  /** Mounting against a server that cannot be reached: the spinner goes
      away and the empty panel shows. */
  method MountWithFailedFetch() returns (home: HomeState)
    ensures fresh(home)
    ensures home.events == [] && !home.loading && home.CurrentView() == EmptyPanel
  {
    home := new HomeState();
    var notice := home.LoadEvents(Failed);
    assert notice == Some(Error(LoadFailed));
  }

  /** Mounting against a server with no events: the empty panel shows, not the list. */
  method MountWithEmptyList() returns (home: HomeState)
    ensures fresh(home)
    ensures home.events == [] && !home.loading && home.CurrentView() == EmptyPanel
  {
    home := new HomeState();
    var notice := home.LoadEvents(Ok([]));
    assert notice == None;
  }

  /** Archiving the only event: its status becomes "archived" and the
      notification reads "Event archived". */
  method ArchiveOnlyEvent(e: Event) returns (home: HomeState, notice: Toast)
    requires e.id == "1" && e.status == "active"
    ensures fresh(home)
    ensures home.events == [e.(status := "archived")] && notice == Success("Event archived")
  {
    home := new HomeState();
    var _ := home.LoadEvents(Ok([e]));
    notice := home.HandleArchive("1", Ok(ArchiveReply("1", "archived")));
  }
}
