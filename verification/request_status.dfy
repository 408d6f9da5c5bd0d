/** The life cycle of a maintenance request, shared by the requests screen
    and the dashboard page. */
module RequestStatus {

  datatype Status = New | InProgress | Completed

  /** A request still needs work unless it is completed. */
  predicate IsOpen(s: Status) {
    s != Completed
  }
}
