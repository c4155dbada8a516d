# Media scheduler: the priority-tiered scheduler, in Dafny

This project models the core of the media scheduler: the `Scheduler` class, which keeps the
known cue lists and up to ten priority tiers of scheduled media events, works out which single
event is current (the highest tier with an active event wins), and drives the media server so
that it plays that event's cue list, sending a start or stop command only when what plays must
change.

Files and modules:

- `entities.dfy` (`Entities`): cue lists, media events, instants, the scheduler's exceptions as
  a `Result`/`Outcome` error datatype.
- `schedule.dfy` (`Schedule`): one tier (`Tier`), i.e. the events of one `Schedule`, with the
  operations the scheduler calls on it. The tier invariant `Tier.Valid` says that at most one
  event of a tier is active at any instant. It is not assumed: the conflict check in `Tier.Add`
  keeps it, and so does every other operation.
- `device.dfy` (`Device`): the media server as the scheduler sees it: the cue list it reports as
  playing and a ghost log of the start/stop commands it received. `CommandsFor` is the decision
  `checkSchedule` takes.
- `scheduler.dfy` (`Scheduling`): the `Scheduler` class. Its fields are `cueLists` (a set),
  `schedules` (a map from priority to tier), `order` (the map's iteration order, since the source
  uses a `LinkedHashMap`), `paused`, the clock reading `now` and the `mediaServer`. Beside the
  class sit the pure functions that say what its queries return (`CurrentEvent`, `EventById`,
  `EventsByCueList`) and what its updates do to the tiers (`AddOutcome`, `Placed`, `Purged`,
  `Moved`), together with the lemmas about them. Mutating operations are methods with
  `modifies` clauses. They keep the object invariant `Scheduler.Valid`:
  - every tier is at a priority in 1..10 and is valid;
  - `order` lists each priority once;
  - every event plays a known cue list.
- `scenarios.dfy` (`Scenarios`): client runs in the style of the test harness. The timer is
  paused and the clock is set by hand. `CheckScheduleTwice` calls `checkSchedule` after the
  change, as the harness's `when_time_is` does; the other runs query `getCurrentEvent` directly.
  In these runs an instant is a half-hour slot counted from midnight, so 18 is 09:00.

Points of `Scheduler.java` that a reader might expect to work otherwise:

- `addCueList` performs no duplicate check; adding a known cue list changes nothing.
- `switchPriority` re-adds the event at the new priority and only then removes it from the tier
  where it was found. There is no rollback, but none is needed: a failed re-add throws before
  the removal starts, and `addEvent` only reports a conflict from a tier that already existed
  (a tier it creates is empty). So a failed switch leaves the tiers and their order as they were.
- Only `addEvent`, `removeEvent` and `switchPriority` (and the timer) call `checkSchedule`.
  `createSchedule` does not, although it can replace a populated tier with an empty one.
- No cue-list persistence happens in this version of `Scheduler.java`.

## Model

| member | source | states |
|---|---|---|
| `Schedule.Tier.ActiveAt` | src/main/java/net/amarantha/mediascheduler/scheduler/Scheduler.java:86 | the event found is in the tier and active at the instant; none is found exactly when no event of the tier is active; in a valid tier any active event is the one found |
| `Schedule.ActiveAtIsTheActiveEvent` | src/main/java/net/amarantha/mediascheduler/scheduler/Scheduler.java:86-89 | in a valid tier, `getEvent(now)` returns e exactly when e is in the tier and active now (at most one active event per tier) |
| `Schedule.Tier.ById` | src/main/java/net/amarantha/mediascheduler/scheduler/Scheduler.java:127 | the event found is in the tier and has the id; none is found exactly when the tier holds no event with that id |
| `Schedule.Tier.ByCueList` | src/main/java/net/amarantha/mediascheduler/scheduler/Scheduler.java:139 | the result holds exactly the tier's events that play the cue list |
| `Schedule.Tier.Without` | src/main/java/net/amarantha/mediascheduler/scheduler/Scheduler.java:119 | afterwards no event has the id, every event with another id is kept or absent as before, and the tier stays valid |
| `Schedule.Tier.Add` | src/main/java/net/amarantha/mediascheduler/scheduler/Scheduler.java:111 | fails with ScheduleConflict exactly when the new event overlaps one in the tier, otherwise appends it; a valid tier stays valid |
| `Device.CommandsFor` | src/main/java/net/amarantha/mediascheduler/scheduler/Scheduler.java:188-201 | at most one command; once obeyed the server shows the target cue list; no command exactly when it already does |
| `Device.ReconcileIsIdempotent` | src/main/java/net/amarantha/mediascheduler/scheduler/Scheduler.java:188-201 | a second reconciliation right after the first sends no command |
| `Scheduling.HighestActiveTierWins` | src/main/java/net/amarantha/mediascheduler/scheduler/Scheduler.java:82-93 | if tier q has an active event and no higher tier does, the current event is tier q's, whatever the lower tiers hold |
| `Scheduling.NoCurrentEventIffNoActiveTier` | src/main/java/net/amarantha/mediascheduler/scheduler/Scheduler.java:82-93 | the current event is null exactly when no tier from 1 to 10 has an active event |
| `Scheduling.CurrentEventComesFromHighestTier` | src/main/java/net/amarantha/mediascheduler/scheduler/Scheduler.java:82-93 | a current event is active now and is the active event of some tier q with no active event in any tier above q |
| `Scheduling.FirstHolder` | src/main/java/net/amarantha/mediascheduler/scheduler/Scheduler.java:126-132 | the priority found is the first in the visiting order whose tier holds the id (no earlier tier holds it); none is found exactly when no visited tier holds it |
| `Scheduling.EventByIdFindsAny` | src/main/java/net/amarantha/mediascheduler/scheduler/Scheduler.java:125-133 | `getEventById` returns null exactly when no tier holds the id, and otherwise an event with that id from some tier |
| `Scheduling.EventsByCueList` | src/main/java/net/amarantha/mediascheduler/scheduler/Scheduler.java:135-142 | the result holds exactly the events of all tiers that play the cue list |
| `Scheduling.AddOutcome` | src/main/java/net/amarantha/mediascheduler/scheduler/Scheduler.java:102-114 | CueListNotFound exactly when the cue list is unknown, whatever the priority; with a known cue list, PriorityOutOfBounds exactly when the priority is outside 1..10; with a known cue list and an existing or creatable tier, ScheduleConflict exactly when the event overlaps one in that tier, and success exactly when it does not |
| `Scheduling.Placed` | src/main/java/net/amarantha/mediascheduler/scheduler/Scheduler.java:107-111 | the tier at the priority exists afterwards (created lazily); it gains the event unless the event conflicts, in which case it is as before; no other tier changes |
| `Scheduling.Registered` | src/main/java/net/amarantha/mediascheduler/scheduler/Scheduler.java:61-74 | putting a tier in the linked map keeps the iteration order a duplicate-free listing of exactly the map's keys |
| `Scheduling.RegisteredKeepsOrder` | src/main/java/net/amarantha/mediascheduler/scheduler/Scheduler.java:74 | putting a tier keeps the existing iteration order as a prefix; an existing key leaves the order unchanged and a new key goes last |
| `Scheduling.ConflictChangesNothing` | src/main/java/net/amarantha/mediascheduler/scheduler/Scheduler.java:107-111 | a conflict comes only from a tier that already existed, and the tiers after it are exactly the tiers before |
| `Scheduling.PlacedKeepsInvariants` | src/main/java/net/amarantha/mediascheduler/scheduler/Scheduler.java:102-114 | an accepted event keeps all tiers in 1..10 and valid, the order consistent, and every event on a known cue list |
| `Scheduling.Purged` | src/main/java/net/amarantha/mediascheduler/scheduler/Scheduler.java:116-123 | afterwards no tier holds the id; events with other ids are untouched in every tier; the tiers stay valid |
| `Scheduling.MovedRelocates` | src/main/java/net/amarantha/mediascheduler/scheduler/Scheduler.java:144-156 | a successful switch to another tier makes the new tier its old events followed by the event, leaves no event with its id in the old tier while keeping every event there with another id, and changes no other tier |
| `Scheduling.PurgedTierKeepsInvariants` | src/main/java/net/amarantha/mediascheduler/scheduler/Scheduler.java:150 | removing an id from one tier keeps every scheduler invariant |
| `Scheduling.Scheduler.constructor` | src/main/java/net/amarantha/mediascheduler/scheduler/Scheduler.java:26-32 | a new scheduler has no cue lists, no tiers, is not paused and satisfies the invariant |
| `Scheduling.Scheduler.AddCueList` | src/main/java/net/amarantha/mediascheduler/scheduler/Scheduler.java:34-37 | the cue list is added (no duplicate check) and returned |
| `Scheduling.Scheduler.RemoveCueList` | src/main/java/net/amarantha/mediascheduler/scheduler/Scheduler.java:43-50 | fails with CueListInUse, cue lists unchanged, exactly when some event in some tier plays the cue list; otherwise removes exactly that cue list |
| `Scheduling.Scheduler.CreateSchedule` | src/main/java/net/amarantha/mediascheduler/scheduler/Scheduler.java:69-76 | a priority outside 1..10 fails with PriorityOutOfBounds and changes nothing; otherwise that priority maps to a fresh empty tier and no other key changes, so all keys stay within 1..10 |
| `Scheduling.Scheduler.GetCurrentEvent` | src/main/java/net/amarantha/mediascheduler/scheduler/Scheduler.java:82-93 | the countdown loop returns `CurrentEvent`: null exactly when no tier in 10..1 has an active event, otherwise an event active now |
| `Scheduling.Scheduler.GetEventById` | src/main/java/net/amarantha/mediascheduler/scheduler/Scheduler.java:125-133 | returns the first hit in tier order; null exactly when no tier holds the id, otherwise an event with that id from some tier |
| `Scheduling.Scheduler.GetEventsByCueList` | src/main/java/net/amarantha/mediascheduler/scheduler/Scheduler.java:135-142 | returns exactly the events of all tiers that play the cue list, tier after tier |
| `Scheduling.Scheduler.CheckSchedule` | src/main/java/net/amarantha/mediascheduler/scheduler/Scheduler.java:188-201 | sends stop only when there is no current event and the server reports a cue list, start(target) only when the target differs from the reported cue list, nothing otherwise; afterwards the server shows the target, so a second call sends nothing |
| `Scheduling.Scheduler.AddEvent` | src/main/java/net/amarantha/mediascheduler/scheduler/Scheduler.java:102-114 | an unknown cue list fails before any tier is created or touched; a priority out of range fails with nothing changed; a conflict, like every other error, leaves the tiers and their order unchanged; on success the event is in the tier at the priority, no other tier changes, and the server is reconciled; the invariant is kept |
| `Scheduling.Scheduler.AddEventAtLowest` | src/main/java/net/amarantha/mediascheduler/scheduler/Scheduler.java:95-100 | behaves exactly as `addEvent(1, event)`, the result wrapped as a possibly-null event |
| `Scheduling.PurgedKeepsInvariants` | src/main/java/net/amarantha/mediascheduler/scheduler/Scheduler.java:116-123 | removing an id from every tier keeps the tiers valid, the priority order matching the tiers and every event's cue list known |
| `Scheduling.Scheduler.RemoveEvent` | src/main/java/net/amarantha/mediascheduler/scheduler/Scheduler.java:116-123 | returns true exactly when some tier held the id; afterwards no tier holds it and other events are untouched; the server is reconciled unconditionally |
| `Scheduling.Scheduler.SwitchPriority` | src/main/java/net/amarantha/mediascheduler/scheduler/Scheduler.java:144-156 | null and no change exactly when no tier holds the id; otherwise moves the event `getEventById` would return, as `Relocate` states |
| `Scheduling.Scheduler.Relocate` | src/main/java/net/amarantha/mediascheduler/scheduler/Scheduler.java:148-153 | if the re-add fails, its error is returned and the tiers, their order and the server are unchanged; on success the event is in the new tier, its id is gone from the old tier, and the server was reconciled twice |
| `Scheduling.Scheduler.Pause` | src/main/java/net/amarantha/mediascheduler/scheduler/Scheduler.java:184-186 | sets the pause flag |
| `Scheduling.Scheduler.Tick` | src/main/java/net/amarantha/mediascheduler/scheduler/Scheduler.java:174-181 | a timer run reconciles the server only when not paused, and leaves it untouched when paused |
| `Scenarios.SingleEventWindow` | src/test/java/net/amarantha/mediascheduler/TestCase.java:213-220 | an event from 09:00 to 10:00 is current at 09:30, and nothing is current at 10:00, when it ends |
| `Scenarios.HigherTierWins` | src/test/java/net/amarantha/mediascheduler/TestCase.java:213-220 | at 09:30 the priority-5 event (09:30 to 10:00) is current although the priority-1 event (09:00 to 11:00) also covers that instant |
| `Scenarios.RemoveCueListAfterItsEvent` | src/main/java/net/amarantha/mediascheduler/scheduler/Scheduler.java:43-50 | removing a cue list fails with CueListInUse while an event plays it and succeeds once that event is removed |
| `Scenarios.CheckScheduleTwice` | src/test/java/net/amarantha/mediascheduler/TestCase.java:81-84 | moving the clock into an event's window and checking twice sends exactly one start command |

## Left out

- `Schedule` and `MediaEvent` are not part of this model. An event's date, start and end time and
  weekly repeats are folded into one finite set of instants, its window. "Active at t" is
  membership in that window, and two events conflict when their windows share an instant. An
  event that recurs weekly without end would need an infinite window, so it is modelled only up
  to a finite horizon.
- How `Schedule` orders its events, and what `Schedule.addEvent` does beyond the conflict check
  (for instance when `switchPriority` targets the event's own tier), are modelling choices:
  `Schedule.java`'s own behaviour is not modelled.
- Cue lists are compared by value (same number and name). `Scheduler.java` relies on
  `CueList.equals` in `addEvent` (`cueLists.contains`), `removeCueList` (`cueLists.remove`) and
  `checkSchedule` (`nextCueList.equals(currentCueList)`); `CueList.java` is not part of this
  model, so the model assumes its `equals` is value equality.
- Schedule objects are values here. `createSchedule` returns the object it put in the map, and
  `getSchedules` and `getCueLists` hand out the live collections. Changes a caller makes through
  those references, and aliasing in general, are not modelled. `getSchedules` and `getCueLists`
  are plain getters: the model's fields are public.
- `clearCueLists` and `clearSchedules` are package-private test helpers and are left out.
  `clearCueLists` would break the invariant that every event plays a known cue list.
- `startup`, `shutdown`, the `java.util.Timer` thread and the `Projector` are left out. The
  periodic thread is concurrency and the devices are foreign. The timer's body is `Tick`, and
  `Now` is the field `now`.
- The media server (`ArKaos`) is foreign code. The model assumes that a start command makes it
  report that cue list and a stop command makes it report none, both at once.
- Exception messages, including the count in the CueListInUse message, are not modelled.
- A null event or cue list argument, which would raise a NullPointerException, is not modelled.
- Java's 32-bit `int` priority and 64-bit `long` event id are unbounded integers here. The
  operations only compare them and count priorities down from 10, so no wrap-around can occur.
- `JsonEncoder`, `HttpServiceImpl`, `LogoPusher` and the test-side `JsonEncoderMock` are out of
  scope: JSON encoding in a library, network I/O, and a timer-driven pusher.
- `TestCase.java` targets an older API (`Cue`, `addCue`, `DuplicateCueException`). It is used
  only as the source of the scenarios.
