/** Client runs of the scheduler in the style of its test harness: the timer is paused and the clock
    is set by hand. `CheckScheduleTwice` calls `checkSchedule` after the clock change, as the
    harness's `when_time_is` does; the other runs query `getCurrentEvent` directly. Instants count
    half-hour slots from midnight, so 18 is 09:00 and 19 is 09:30. */
module Scenarios {
  import opened Entities
  import opened Schedule
  import opened Device
  import opened Scheduling

  /** A paused scheduler that knows cue list A and holds one event, id 1, playing A from 09:00 to
      10:00 at priority 1; its server has received no command and plays nothing. */
  method OneEvent() returns (scheduler: Scheduler, event: MediaEvent)
    ensures fresh(scheduler) && fresh(scheduler.mediaServer) && scheduler.Valid() && scheduler.paused
    ensures event == MediaEvent(1, CueList(1, "A"), Span(18, 20))
    ensures scheduler.cueLists == {event.cueList}
    ensures scheduler.schedules == map[1 := Tier([event])] && scheduler.order == [1]
    ensures scheduler.mediaServer.current == None && scheduler.mediaServer.log == []
  {
    var server := new MediaServer(None);
    scheduler := new Scheduler(server, 0);
    scheduler.Pause(true);
    var a := scheduler.AddCueList(CueList(1, "A"));
    event := MediaEvent(1, a, Span(18, 20));
    assert !EmptyTier.Conflicts(event);
    var added := scheduler.AddEvent(1, event);
    assert scheduler.schedules.Keys == {1} && scheduler.schedules[1].events == [event];
    assert scheduler.schedules[1] == Tier([event]);
    assert scheduler.schedules[1].ActiveAt(0) == None by {
      assert !event.IsActiveAt(0);
    }
    NoCurrentEventIffNoActiveTier(scheduler.schedules, MAX_PRIORITY, 0);
    assert Target(scheduler.schedules, 0) == None;
  }

  /** One event plays cue list A from 09:00 to 10:00 at priority 1: it is current at 09:30 and
      nothing is current at 10:00. */
  method SingleEventWindow() returns (at0930: Option<MediaEvent>, at1000: Option<MediaEvent>)
    ensures at0930 == Some(MediaEvent(1, CueList(1, "A"), Span(18, 20)))
    ensures at1000 == None
  {
    var scheduler, event := OneEvent();
    scheduler.now := 19;
    ActiveAtIsTheActiveEvent(scheduler.schedules[1], 19, event);
    HighestActiveTierWins(scheduler.schedules, MAX_PRIORITY, 19, 1);
    at0930 := scheduler.GetCurrentEvent();

    scheduler.now := 20;
    at1000 := scheduler.GetCurrentEvent();
  }

  /** Event A at priority 1 covers 09:00 to 11:00 and event B at priority 5 covers 09:30 to 10:00; at
      09:30 B is current, because the higher tier wins although its window is narrower. */
  method HigherTierWins() returns (at0930: Option<MediaEvent>)
    ensures at0930 == Some(MediaEvent(2, CueList(2, "B"), Span(19, 20)))
  {
    var scheduler, eventB := TwoTiers();
    scheduler.now := 19;
    assert eventB in scheduler.schedules[5].events;
    ActiveAtIsTheActiveEvent(scheduler.schedules[5], 19, eventB);
    HighestActiveTierWins(scheduler.schedules, MAX_PRIORITY, 19, 5);
    at0930 := scheduler.GetCurrentEvent();
  }

  /** A scheduler with event A in tier 1 and event B, which overlaps A, in tier 5. */
  method TwoTiers() returns (scheduler: Scheduler, eventB: MediaEvent)
    ensures fresh(scheduler) && scheduler.Valid()
    ensures eventB == MediaEvent(2, CueList(2, "B"), Span(19, 20))
    ensures scheduler.schedules.Keys == {1, 5} && scheduler.schedules[5].events == [eventB]
  {
    var server := new MediaServer(None);
    scheduler := new Scheduler(server, 0);
    scheduler.Pause(true);
    var a := scheduler.AddCueList(CueList(1, "A"));
    var b := scheduler.AddCueList(CueList(2, "B"));
    var eventA := MediaEvent(1, a, Span(18, 22));
    eventB := MediaEvent(2, b, Span(19, 20));
    var addedA := scheduler.AddEvent(1, eventA);
    assert scheduler.schedules.Keys == {1};
    assert !TierAt(scheduler.schedules, 5).Conflicts(eventB);
    var addedB := scheduler.AddEvent(5, eventB);
  }

  /** A cue list cannot be removed while an event plays it, and can be once that event is removed. */
  method RemoveCueListAfterItsEvent() returns (whileUsed: Outcome, afterwards: Outcome)
    ensures whileUsed == Fail(CueListInUse)
    ensures afterwards == Pass
  {
    var scheduler, event := OneEvent();
    assert event in scheduler.schedules[1].events;
    whileUsed := scheduler.RemoveCueList(event.cueList);

    var removed := scheduler.RemoveEvent(1);
    assert scheduler.schedules.Keys == {1};
    assert !InUse(scheduler.schedules, event.cueList);
    afterwards := scheduler.RemoveCueList(event.cueList);
  }

  /** With the timer paused, moving the clock into an event's window and calling `checkSchedule`
      starts its cue list once; calling it again sends nothing more. */
  method CheckScheduleTwice() returns (server: MediaServer)
    ensures server.log == [Start(CueList(1, "A"))]
    ensures server.current == Some(CueList(1, "A"))
  {
    var scheduler, event := OneEvent();
    server := scheduler.mediaServer;
    scheduler.now := 19;
    assert event.IsActiveAt(19);
    HighestActiveTierWins(scheduler.schedules, MAX_PRIORITY, 19, 1);
    assert Target(scheduler.schedules, 19) == Some(event.cueList);
    scheduler.CheckSchedule();
    assert server.log == [Start(event.cueList)];
    scheduler.CheckSchedule();
  }
}
