/** The values the scheduler works with: instants, cue lists, media events and the
    errors its operations report instead of throwing. */
module Entities {

  /** A reading of the scheduler's clock (what `Now.now()` reports), as a discrete tick. */
  type Instant = int

  /** The instants from `lo` up to but excluding `hi`: the window of a one-day event that starts at
      `lo` and ends at `hi`. */
  function Span(lo: Instant, hi: Instant): (r: set<Instant>)
    ensures forall t :: t in r <==> lo <= t < hi
    decreases hi - lo
  {
    if lo >= hi then {} else {lo} + Span(lo + 1, hi)
  }

  /** A cue list the media server can play. Two cue lists are equal when their fields are. */
  datatype CueList = CueList(number: int, name: string)

  /** A scheduled event: its id, the cue list it plays, and its window, the instants at which it is
      active. The window stands for the event's date, start time, end time and weekly repeats. */
  datatype MediaEvent = MediaEvent(id: int, cueList: CueList, window: set<Instant>)
  {
    predicate IsActiveAt(t: Instant) {
      t in window
    }

    /** Two events overlap when some instant lies in both windows. */
    predicate Overlaps(other: MediaEvent) {
      exists t :: t in window && t in other.window
    }
  }

  /** The checked exceptions of the scheduler, one constructor each. */
  datatype SchedulerError =
    | CueListNotFound
    | CueListInUse
    | PriorityOutOfBounds
    | ScheduleConflict

  /** A Java reference that may be null. */
  datatype Option<+T> = None | Some(value: T)

  /** The value a throwing Java method returns, or the exception it throws. */
  datatype Result<+T> = Ok(value: T) | Err(error: SchedulerError)

  /** The outcome of a throwing Java method that returns nothing. */
  datatype Outcome = Pass | Fail(error: SchedulerError)
}
