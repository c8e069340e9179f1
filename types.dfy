/** The event records exchanged with the scheduling server (src/types/event.ts). */
module Types {

  datatype Option<+T> = None | Some(value: T)

  /** The closed set of categories an event can carry. */
  datatype Category = Work | Personal | Other

  /** The string the server and the category filter use for a category. */
  function CategoryName(c: Category): (s: string)
    ensures s == "Work" || s == "Personal" || s == "Other"
    ensures s != "All"
  {
    match c
    case Work => "Work"
    case Personal => "Personal"
    case Other => "Other"
  }

  /** Reads a category name back; any other string names no category. */
  function ParseCategory(s: string): (r: Option<Category>)
    ensures r.Some? ==> CategoryName(r.value) == s
    ensures forall c :: CategoryName(c) == s ==> r == Some(c)
  {
    if s == "Work" then Some(Work)
    else if s == "Personal" then Some(Personal)
    else if s == "Other" then Some(Other)
    else None
  }

  lemma CategoryNameInjective(c: Category, d: Category)
    requires CategoryName(c) == CategoryName(d)
    ensures c == d
  {
  }

  /** A stored event. `notes` is the only optional field; `status` is an
      opaque string of which only "archived" means anything to the client. */
  datatype Event = Event(
    id: string,
    title: string,
    date: string,
    time: string,
    notes: Option<string>,
    category: Category,
    status: string)

  const Archived := "archived"

  /** What the client sends to create an event: an Event without the
      server-assigned id, category and status. */
  datatype CreateEventData = CreateEventData(
    title: string,
    date: string,
    time: string,
    notes: Option<string>)

  /** The projection that drops id, category and status. */
  function ToCreateData(e: Event): (d: CreateEventData)
  {
    CreateEventData(e.title, e.date, e.time, e.notes)
  }

  /** An event built from creation data and the fields the server assigns. */
  function WithServerFields(d: CreateEventData, id: string, category: Category, status: string): (e: Event)
  {
    Event(id, d.title, d.date, d.time, d.notes, category, status)
  }

  /** Dropping the server fields and putting them back gives the event again:
      CreateEventData is exactly Event minus id, category and status. */
  lemma OmitRoundTrip(e: Event)
    ensures WithServerFields(ToCreateData(e), e.id, e.category, e.status) == e
  {
  }

  /** The projection forgets nothing of the creation data. */
  lemma ProjectionRoundTrip(d: CreateEventData, id: string, category: Category, status: string)
    ensures ToCreateData(WithServerFields(d, id, category, status)) == d
    ensures WithServerFields(d, id, category, status).id == id
    ensures WithServerFields(d, id, category, status).category == category
    ensures WithServerFields(d, id, category, status).status == status
  {
  }
}
