/** The remote calls of src/lib/api.ts, reduced to what the handlers see:
    every call either succeeds with a value or fails (a non-success HTTP
    status or a transport error, which api.ts turns into a thrown Error). */
module Api {
  import opened Types

  /** The settled outcome of one remote call. */
  datatype Response<+T> = Ok(value: T) | Failed

  /** The body the archive endpoint answers with. */
  datatype ArchiveReply = ArchiveReply(id: string, status: string)

  /** A remote call as issued by the client, recorded in issue order. */
  datatype Request =
    | FetchEvents
    | CreateEvent(data: CreateEventData)
    | DeleteEvent(id: string)
    | ArchiveEvent(id: string)
}
