/** The priority-tiered scheduler: a set of cue lists, a map from priority (1 to MAX_PRIORITY) to
    tiers kept in the order the tiers were created, a pause flag, the clock, and the media server it
    drives. The pure functions below say what the scheduler's queries return and what its updates
    do to the tiers; the class `Scheduler` performs them step by step and is proved against them. */
module Scheduling {
  import opened Entities
  import opened Schedule
  import opened Device

  const MAX_PRIORITY: int := 10

  predicate InRange(p: int) {
    1 <= p <= MAX_PRIORITY
  }

  /** The tier at `p`, or the empty tier `createSchedule` would put there. */
  function TierAt(s: map<int, Tier>, p: int): Tier {
    if p in s then s[p] else EmptyTier
  }

  // ---------------------------------------------------------------------------------------------
  // Invariants of the scheduler's state

  /** Every tier sits at a priority in 1..MAX_PRIORITY and has at most one active event per instant. */
  ghost predicate TiersValid(s: map<int, Tier>) {
    forall p :: p in s ==> InRange(p) && s[p].Valid()
  }

  /** `order` lists the priorities of `s` once each, as a LinkedHashMap's iteration does. */
  ghost predicate OrderMatches(order: seq<int>, s: map<int, Tier>) {
    && (forall p :: p in s <==> p in order)
    && (forall i, j :: 0 <= i < j < |order| ==> order[i] != order[j])
  }

  /** Every event plays a cue list the scheduler knows. */
  ghost predicate CueListsKnown(cueLists: set<CueList>, s: map<int, Tier>) {
    forall p, x :: p in s && x in s[p].events ==> x.cueList in cueLists
  }

  /** Whether some tier holds an event with id `id`. */
  predicate HoldsAnywhere(s: map<int, Tier>, id: int) {
    exists p :: p in s && s[p].Holds(id)
  }

  /** Whether some tier holds an event that plays `c`. */
  predicate InUse(s: map<int, Tier>, c: CueList) {
    exists p, x :: p in s && x in s[p].events && x.cueList == c
  }

  // ---------------------------------------------------------------------------------------------
  // getCurrentEvent

  /** The active event of the highest tier at or below `p` that has one. */
  function CurrentFrom(s: map<int, Tier>, p: int, t: Instant): (r: Option<MediaEvent>)
    decreases p
  {
    if p <= 0 then None
    else if p in s && s[p].ActiveAt(t).Some? then s[p].ActiveAt(t)
    else CurrentFrom(s, p - 1, t)
  }

  /** What `getCurrentEvent()` returns at instant `t`. */
  function CurrentEvent(s: map<int, Tier>, t: Instant): Option<MediaEvent> {
    CurrentFrom(s, MAX_PRIORITY, t)
  }

  /** The cue list `checkSchedule` wants playing: that of the current event, or none. */
  function Target(s: map<int, Tier>, t: Instant): Option<CueList> {
    match CurrentEvent(s, t)
    case None => None
    case Some(e) => Some(e.cueList)
  }

  /** The highest tier with an active event wins: if tier `q` has one and no tier above it (up to
      `p`) does, the current event is tier `q`'s. */
  lemma {:induction false} HighestActiveTierWins(s: map<int, Tier>, p: int, t: Instant, q: int)
    requires 1 <= q <= p && q in s && s[q].ActiveAt(t).Some?
    requires forall r :: q < r <= p && r in s ==> s[r].ActiveAt(t).None?
    ensures CurrentFrom(s, p, t) == s[q].ActiveAt(t)
    decreases p
  {
    if p > q {
      HighestActiveTierWins(s, p - 1, t, q);
    }
  }

  /** There is no current event exactly when no tier from 1 to `p` has an active event. */
  lemma {:induction false} NoCurrentEventIffNoActiveTier(s: map<int, Tier>, p: int, t: Instant)
    ensures CurrentFrom(s, p, t).None? <==> forall q :: 1 <= q <= p && q in s ==> s[q].ActiveAt(t).None?
    decreases p
  {
    if p > 0 {
      NoCurrentEventIffNoActiveTier(s, p - 1, t);
    }
  }

  /** No tier strictly above `q`, up to `p`, has an event active at `t`. */
  ghost predicate SilentAbove(s: map<int, Tier>, q: int, p: int, t: Instant) {
    forall r :: q < r <= p && r in s ==> s[r].ActiveAt(t).None?
  }

  /** A current event comes from some tier `q`, it is active now, and no tier above `q` (up to `p`)
      has an active event. */
  lemma {:induction false} CurrentEventComesFromHighestTier(s: map<int, Tier>, p: int, t: Instant)
    requires CurrentFrom(s, p, t).Some?
    ensures CurrentFrom(s, p, t).value.IsActiveAt(t)
    ensures exists q :: 1 <= q <= p && q in s && CurrentFrom(s, p, t) == s[q].ActiveAt(t)
                        && SilentAbove(s, q, p, t)
    decreases p
  {
    if p in s && s[p].ActiveAt(t).Some? {
      assert SilentAbove(s, p, p, t);
    } else {
      CurrentEventComesFromHighestTier(s, p - 1, t);
      var q :| 1 <= q <= p - 1 && q in s && CurrentFrom(s, p - 1, t) == s[q].ActiveAt(t)
                && SilentAbove(s, q, p - 1, t);
      SilentOneHigher(s, q, p, t);
    }
  }

  /** A tier without an active event extends the silent range above `q` by one. */
  lemma SilentOneHigher(s: map<int, Tier>, q: int, p: int, t: Instant)
    requires SilentAbove(s, q, p - 1, t)
    requires p !in s || s[p].ActiveAt(t).None?
    ensures SilentAbove(s, q, p, t)
  {
  }

  // ---------------------------------------------------------------------------------------------
  // getEventById, getEventsByCueList

  /** The first priority in `keys` whose tier holds an event with id `id`. */
  function FirstHolder(s: map<int, Tier>, keys: seq<int>, id: int): (r: Option<int>)
    ensures r.Some? ==> r.value in keys && r.value in s && s[r.value].Holds(id)
    ensures r.None? <==> forall p :: p in keys && p in s ==> !s[p].Holds(id)
    ensures r.Some? ==> exists i :: 0 <= i < |keys| && keys[i] == r.value
                          && forall j :: 0 <= j < i ==> !(keys[j] in s && s[keys[j]].Holds(id))
    decreases |keys|
  {
    if keys == [] then None
    else if keys[0] in s && s[keys[0]].ById(id).Some? then
      var k := keys[0];
      assert k in keys && k in s && s[k].Holds(id);
      assert 0 <= 0 < |keys| && keys[0] == k;
      Some(k)
    else
      assert forall p :: p in keys <==> p == keys[0] || p in keys[1..];
      var r := FirstHolder(s, keys[1..], id);
      assert r.Some? ==> exists i :: 0 <= i < |keys| && keys[i] == r.value
                           && forall j :: 0 <= j < i ==> !(keys[j] in s && s[keys[j]].Holds(id)) by {
        if r.Some? {
          var i :| 0 <= i < |keys[1..]| && keys[1..][i] == r.value
                   && forall j :: 0 <= j < i ==> !(keys[1..][j] in s && s[keys[1..][j]].Holds(id));
          assert keys[i + 1] == r.value;
          assert forall j :: 0 <= j < i + 1 ==> !(keys[j] in s && s[keys[j]].Holds(id)) by {
            forall j | 0 <= j < i + 1
              ensures !(keys[j] in s && s[keys[j]].Holds(id))
            {
              if j > 0 {
                assert keys[j] == keys[1..][j - 1];
              }
            }
          }
        }
      }
      r
  }

  /** What `getEventById(id)` returns when the tiers are visited in the order `keys`. */
  function EventById(s: map<int, Tier>, keys: seq<int>, id: int): (r: Option<MediaEvent>)
  {
    match FirstHolder(s, keys, id)
    case None => None
    case Some(p) => s[p].ById(id)
  }

  /** `getEventById` finds an event with the wanted id whenever one exists, and nothing otherwise. */
  lemma EventByIdFindsAny(s: map<int, Tier>, order: seq<int>, id: int)
    requires OrderMatches(order, s)
    ensures EventById(s, order, id).None? <==> !HoldsAnywhere(s, id)
    ensures EventById(s, order, id).Some? ==>
              EventById(s, order, id).value.id == id &&
              exists p :: p in s && EventById(s, order, id).value in s[p].events
  {
  }

  /** What `getEventsByCueList(c)` returns: each tier's events on `c`, tier after tier in `keys`. */
  function EventsByCueList(s: map<int, Tier>, keys: seq<int>, c: CueList): (r: seq<MediaEvent>)
    ensures forall x :: x in r <==> x.cueList == c && exists p :: p in keys && p in s && x in s[p].events
    decreases |keys|
  {
    if keys == [] then []
    else
      var here := if keys[0] in s then s[keys[0]].ByCueList(c) else [];
      var rest := EventsByCueList(s, keys[1..], c);
      assert forall p :: p in keys <==> p == keys[0] || p in keys[1..];
      here + rest
  }

  // ---------------------------------------------------------------------------------------------
  // addEvent, removeEvent, switchPriority on the tiers

  /** The error `addEvent(p, e)` throws, in the order the source checks, or `e` itself. */
  function AddOutcome(cueLists: set<CueList>, s: map<int, Tier>, p: int, e: MediaEvent): (r: Result<MediaEvent>)
    ensures r == Err(CueListNotFound) <==> e.cueList !in cueLists
    ensures r.Ok? ==> r.value == e && e.cueList in cueLists && !TierAt(s, p).Conflicts(e)
    ensures TiersValid(s) && r.Ok? ==> InRange(p)
    ensures TiersValid(s) && e.cueList in cueLists ==> (r == Err(PriorityOutOfBounds) <==> !InRange(p))
    ensures e.cueList in cueLists && (p in s || InRange(p)) ==>
              && (r == Err(ScheduleConflict) <==> TierAt(s, p).Conflicts(e))
              && (r.Ok? <==> !TierAt(s, p).Conflicts(e))
  {
    if e.cueList !in cueLists then Err(CueListNotFound)
    else if p !in s && !InRange(p) then Err(PriorityOutOfBounds)
    else if TierAt(s, p).Conflicts(e) then Err(ScheduleConflict)
    else Ok(e)
  }

  /** The tiers after `addEvent(p, e)` got past its cue-list and priority checks: the tier at `p`
      exists (created if it was absent) and holds `e` unless `e` conflicted; no other tier changes. */
  function Placed(s: map<int, Tier>, p: int, e: MediaEvent): (r: map<int, Tier>)
    ensures r.Keys == s.Keys + {p}
    ensures forall q :: q in s && q != p ==> r[q] == s[q]
    ensures !TierAt(s, p).Conflicts(e) ==> e in r[p].events && r[p].events == TierAt(s, p).events + [e]
    ensures TierAt(s, p).Conflicts(e) ==> r[p] == TierAt(s, p)
  {
    match TierAt(s, p).Add(e)
    case Ok(tier) => s[p := tier]
    case Err(_) => s[p := TierAt(s, p)]
  }

  /** `addEvent` reports a conflict only from a tier that already exists (a new tier is empty), so
      a rejected event leaves the tiers exactly as they were. */
  lemma ConflictChangesNothing(cueLists: set<CueList>, s: map<int, Tier>, p: int, e: MediaEvent)
    requires AddOutcome(cueLists, s, p, e) == Err(ScheduleConflict)
    ensures p in s && Placed(s, p, e) == s
  {
  }

  /** The iteration order after the tier at `p` has been put in the map: a new key goes last. */
  function Registered(order: seq<int>, s: map<int, Tier>, p: int): (r: seq<int>)
    ensures OrderMatches(order, s) ==> OrderMatches(r, s[p := TierAt(s, p)])
  {
    if p in s then order else order + [p]
  }

  /** Putting a tier in the linked map keeps the existing iteration order: a key already present
      keeps its place and a new key goes last. */
  lemma RegisteredKeepsOrder(order: seq<int>, s: map<int, Tier>, p: int)
    requires OrderMatches(order, s)
    ensures |order| <= |Registered(order, s, p)| && Registered(order, s, p)[..|order|] == order
    ensures p in s ==> Registered(order, s, p) == order
    ensures p !in s ==> |Registered(order, s, p)| == |order| + 1 && Registered(order, s, p)[|order|] == p
  {
  }

  /** Placing an event that passed the checks keeps every invariant of the scheduler. */
  lemma PlacedKeepsInvariants(cueLists: set<CueList>, s: map<int, Tier>, order: seq<int>, p: int, e: MediaEvent)
    requires TiersValid(s) && OrderMatches(order, s) && CueListsKnown(cueLists, s)
    requires e.cueList in cueLists && InRange(p)
    ensures TiersValid(Placed(s, p, e))
    ensures OrderMatches(Registered(order, s, p), Placed(s, p, e))
    ensures CueListsKnown(cueLists, Placed(s, p, e))
  {
  }

  /** The tiers after `removeEvent(id)`: every tier loses its events with that id. */
  function Purged(s: map<int, Tier>, id: int): (r: map<int, Tier>)
    ensures r.Keys == s.Keys
    ensures !HoldsAnywhere(r, id)
    ensures forall p, x: MediaEvent :: p in s && x.id != id ==> (x in r[p].events <==> x in s[p].events)
    ensures TiersValid(s) ==> TiersValid(r)
  {
    map p | p in s :: s[p].Without(id)
  }

  /** The tiers after a successful `switchPriority`: `e` added at `p`, then every event with `e`'s id
      removed from the tier it was found in, `from`. */
  function Moved(s: map<int, Tier>, from: int, p: int, e: MediaEvent): (r: map<int, Tier>)
    requires from in s
  {
    var placed := Placed(s, p, e);
    placed[from := placed[from].Without(e.id)]
  }

  /** Moving to another tier leaves `e` at `p`, nothing with its id at `from`, and all other tiers
      as they were. */
  lemma MovedRelocates(s: map<int, Tier>, from: int, p: int, e: MediaEvent)
    requires from in s && from != p && !TierAt(s, p).Conflicts(e)
    ensures Moved(s, from, p, e).Keys == s.Keys + {p}
    ensures e in Moved(s, from, p, e)[p].events
    ensures !Moved(s, from, p, e)[from].Holds(e.id)
    ensures forall q :: q in s && q != from && q != p ==> Moved(s, from, p, e)[q] == s[q]
    ensures forall x: MediaEvent :: x.id != e.id ==> (x in Moved(s, from, p, e)[from].events <==> x in s[from].events)
    ensures Moved(s, from, p, e)[p].events == TierAt(s, p).events + [e]
  {
  }

  /** The result and the tiers after `switchPriority` found `e` in the tier at `from` and tried to
      re-add it at `p`: on failure the error of `addEvent` and the tiers and their order as they
      were; on success `e`, and the tiers `Moved` describes. */
  ghost predicate RelocatedTiers(cueLists: set<CueList>, s: map<int, Tier>, order: seq<int>, from: int, p: int,
                                 e: MediaEvent, r: Result<Option<MediaEvent>>, s': map<int, Tier>, order': seq<int>)
    requires from in s
  {
    match AddOutcome(cueLists, s, p, e)
    case Err(error) =>
      && r == Err(error)
      && s' == s && order' == order
    case Ok(_) =>
      && r == Ok(Some(e))
      && s' == Moved(s, from, p, e)
      && order' == Registered(order, s, p)
  }

  /** The server after `switchPriority` tried to re-add `e` at `p`: untouched on failure; on success
      reconciled once by `addEvent` (against the tiers with `e` in both places) and once more against
      the final tiers `s'`. */
  ghost predicate Reconciled(cueLists: set<CueList>, s: map<int, Tier>, p: int, e: MediaEvent,
                             r: Result<Option<MediaEvent>>, s': map<int, Tier>, now: Instant,
                             current: Option<CueList>, log: seq<Command>,
                             current': Option<CueList>, log': seq<Command>)
  {
    if r.Err? then current' == current && log' == log
    else
      var between := Target(Placed(s, p, e), now);
      && current' == Target(s', now)
      && log' == log + CommandsFor(between, current) + CommandsFor(Target(s', now), between)
  }

  // ---------------------------------------------------------------------------------------------
  // The scheduler

  class Scheduler {
    var cueLists: set<CueList>
    var schedules: map<int, Tier>
    /** The priorities of `schedules` in the order their tiers were created (the LinkedHashMap's order). */
    var order: seq<int>
    var paused: bool
    /** The clock reading `Now.now()` gives. */
    var now: Instant
    const mediaServer: MediaServer

    ghost predicate Valid()
      reads this`cueLists, this`schedules, this`order
    {
      TiersValid(schedules) && OrderMatches(order, schedules) && CueListsKnown(cueLists, schedules)
    }

    constructor (mediaServer: MediaServer, now: Instant)
      ensures Valid()
      ensures this.mediaServer == mediaServer && this.now == now
      ensures cueLists == {} && schedules == map[] && order == [] && !paused
    {
      this.mediaServer := mediaServer;
      this.now := now;
      cueLists := {};
      schedules := map[];
      order := [];
      paused := false;
    }

    /** `addCueList`: no duplicate check, adding a known cue list changes nothing. */
    method AddCueList(cueList: CueList) returns (r: CueList)
      requires Valid()
      modifies this`cueLists
      ensures Valid()
      ensures r == cueList
      ensures cueLists == old(cueLists) + {cueList}
    {
      cueLists := cueLists + {cueList};
      r := cueList;
    }

    /** `removeCueList`: refused with CueListInUse while an event of any tier plays the cue list. */
    method RemoveCueList(cueList: CueList) returns (r: Outcome)
      requires Valid()
      modifies this`cueLists
      ensures Valid()
      ensures r.Fail? <==> InUse(schedules, cueList)
      ensures r.Fail? ==> r.error == CueListInUse && cueLists == old(cueLists)
      ensures r.Pass? ==> cueLists == old(cueLists) - {cueList}
    {
      var events := GetEventsByCueList(cueList);
      if |events| == 0 {
        cueLists := cueLists - {cueList};
        r := Pass;
      } else {
        assert events[0] in events;
        r := Fail(CueListInUse);
      }
    }

    /** `createSchedule`: a priority outside 1..MAX_PRIORITY is refused and nothing changes; otherwise
        the priority gets a fresh empty tier (replacing any tier it had) and no other tier changes. */
    method CreateSchedule(priority: int) returns (r: Result<Tier>)
      requires Valid()
      modifies this`schedules, this`order
      ensures Valid()
      ensures !InRange(priority) ==> r == Err(PriorityOutOfBounds) && schedules == old(schedules) && order == old(order)
      ensures InRange(priority) ==>
                r == Ok(EmptyTier)
                && schedules == old(schedules)[priority := EmptyTier]
                && order == Registered(old(order), old(schedules), priority)
    {
      if !InRange(priority) {
        return Err(PriorityOutOfBounds);
      }
      assert EmptyTier.Valid();
      order := Registered(order, schedules, priority);
      schedules := schedules[priority := EmptyTier];
      r := Ok(EmptyTier);
    }

    /** `getCurrentEvent`: counts down from MAX_PRIORITY and returns the first active event found. */
    method GetCurrentEvent() returns (r: Option<MediaEvent>)
      ensures r == CurrentEvent(schedules, now)
      ensures r.None? <==> forall q :: InRange(q) && q in schedules ==> schedules[q].ActiveAt(now).None?
      ensures r.Some? ==> r.value.IsActiveAt(now)
    {
      NoCurrentEventIffNoActiveTier(schedules, MAX_PRIORITY, now);
      var priority := MAX_PRIORITY;
      while priority > 0
        invariant 0 <= priority <= MAX_PRIORITY
        invariant CurrentFrom(schedules, priority, now) == CurrentEvent(schedules, now)
      {
        if priority in schedules {
          var event := schedules[priority].ActiveAt(now);
          if event.Some? {
            return event;
          }
        }
        priority := priority - 1;
      }
      return None;
    }

    /** `getEventById`: visits the tiers in creation order and returns the first event with the id. */
    method GetEventById(eventId: int) returns (r: Option<MediaEvent>)
      requires Valid()
      ensures r == EventById(schedules, order, eventId)
      ensures r.None? <==> !HoldsAnywhere(schedules, eventId)
      ensures r.Some? ==> r.value.id == eventId && exists p :: p in schedules && r.value in schedules[p].events
    {
      EventByIdFindsAny(schedules, order, eventId);
      var i := 0;
      while i < |order|
        invariant 0 <= i <= |order|
        invariant FirstHolder(schedules, order[i..], eventId) == FirstHolder(schedules, order, eventId)
      {
        var event := schedules[order[i]].ById(eventId);
        if event.Some? {
          return event;
        }
        assert order[i..][1..] == order[i + 1..];
        i := i + 1;
      }
      return None;
    }

    /** `getEventsByCueList`: every event that plays `cueList`, tier after tier in creation order. */
    method GetEventsByCueList(cueList: CueList) returns (result: seq<MediaEvent>)
      requires Valid()
      ensures result == EventsByCueList(schedules, order, cueList)
      ensures forall x :: x in result <==> x.cueList == cueList && exists p :: p in schedules && x in schedules[p].events
    {
      result := [];
      var i := 0;
      while i < |order|
        invariant 0 <= i <= |order|
        invariant result + EventsByCueList(schedules, order[i..], cueList) == EventsByCueList(schedules, order, cueList)
      {
        assert order[i..][1..] == order[i + 1..];
        result := result + schedules[order[i]].ByCueList(cueList);
        i := i + 1;
      }
      assert order[i..] == [];
    }

    /** `checkSchedule`: sends stop when nothing should play but the server reports a cue list, start
        when the wanted cue list differs from the reported one, and nothing otherwise. */
    method CheckSchedule()
      modifies mediaServer
      ensures mediaServer.current == Target(schedules, now)
      ensures mediaServer.log == old(mediaServer.log) + CommandsFor(Target(schedules, now), old(mediaServer.current))
    {
      var currentEvent := GetCurrentEvent();
      var nextCueList := if currentEvent.None? then None else Some(currentEvent.value.cueList);
      var currentCueList := mediaServer.GetCurrentCueList();
      if nextCueList.None? {
        if currentCueList.Some? {
          mediaServer.StopCueList();
        }
      } else if nextCueList != currentCueList {
        mediaServer.StartCueList(nextCueList.value);
      }
    }

    /** `addEvent(priority, event)`: CueListNotFound before anything is touched; PriorityOutOfBounds
        when a missing tier cannot be created; ScheduleConflict from an existing tier, which stays as
        it was; on success the event is in the tier at `priority` (created if it was absent) and the
        server is reconciled. Whatever the error, the tiers and their order are unchanged. */
    method AddEvent(priority: int, event: MediaEvent) returns (r: Result<MediaEvent>)
      requires Valid()
      modifies this`schedules, this`order, mediaServer
      ensures Valid()
      ensures r == AddOutcome(old(cueLists), old(schedules), priority, event)
      ensures r.Err? ==> schedules == old(schedules) && order == old(order)
      ensures r.Ok? || r == Err(ScheduleConflict) ==>
                schedules == Placed(old(schedules), priority, event)
                && order == Registered(old(order), old(schedules), priority)
      ensures r.Err? ==> mediaServer.current == old(mediaServer.current) && mediaServer.log == old(mediaServer.log)
      ensures r.Ok? ==>
                mediaServer.current == Target(schedules, now)
                && mediaServer.log == old(mediaServer.log) + CommandsFor(Target(schedules, now), old(mediaServer.current))
    {
      if event.cueList !in cueLists {
        return Err(CueListNotFound);
      }
      var schedule: Tier;
      if priority in schedules {
        schedule := schedules[priority];
      } else {
        var created := CreateSchedule(priority);
        if created.Err? {
          return Err(created.error);
        }
        schedule := created.value;
      }
      PlacedKeepsInvariants(cueLists, old(schedules), old(order), priority, event);
      var added := schedule.Add(event);
      if added.Err? {
        ConflictChangesNothing(cueLists, old(schedules), priority, event);
        return Err(added.error);
      }
      schedules := schedules[priority := added.value];
      CheckSchedule();
      return Ok(event);
    }

    /** `addEvent(event)`: exactly `addEvent(1, event)`; its PriorityOutOfBounds, which cannot occur,
        would be swallowed into a null result. */
    method AddEventAtLowest(event: MediaEvent) returns (r: Result<Option<MediaEvent>>)
      requires Valid()
      modifies this`schedules, this`order, mediaServer
      ensures Valid()
      ensures r == match AddOutcome(old(cueLists), old(schedules), 1, event)
                   case Ok(e) => Ok(Some(e))
                   case Err(error) => Err(error)
      ensures r.Err? ==> schedules == old(schedules) && order == old(order)
      ensures r.Ok? || r == Err(ScheduleConflict) ==>
                schedules == Placed(old(schedules), 1, event)
                && order == Registered(old(order), old(schedules), 1)
      ensures r.Err? ==> mediaServer.current == old(mediaServer.current) && mediaServer.log == old(mediaServer.log)
      ensures r.Ok? ==>
                mediaServer.current == Target(schedules, now)
                && mediaServer.log == old(mediaServer.log) + CommandsFor(Target(schedules, now), old(mediaServer.current))
    {
      var added := AddEvent(1, event);
      r := match added
           case Ok(e) => Ok(Some(e))
           case Err(error) => if error == PriorityOutOfBounds then Ok(None) else Err(error);
    }

    /** `removeEvent(eventId)`: every tier drops its events with that id; the result says whether any
        tier had one. The server is reconciled whether or not anything was removed. */
    method RemoveEvent(eventId: int) returns (removed: bool)
      requires Valid()
      modifies this`schedules, mediaServer
      ensures Valid()
      ensures removed == HoldsAnywhere(old(schedules), eventId)
      ensures schedules == Purged(old(schedules), eventId)
      ensures mediaServer.current == Target(schedules, now)
      ensures mediaServer.log == old(mediaServer.log) + CommandsFor(Target(schedules, now), old(mediaServer.current))
    {
      removed := false;
      OrderedKeysPresent(order, schedules);
      var i := 0;
      while i < |order|
        invariant 0 <= i <= |order|
        invariant forall j :: 0 <= j < |order| ==> order[j] in old(schedules)
        invariant forall a, b :: 0 <= a < b < |order| ==> order[a] != order[b]
        invariant schedules.Keys == old(schedules).Keys
        invariant forall j :: 0 <= j < i ==> schedules[order[j]] == old(schedules)[order[j]].Without(eventId)
        invariant forall j :: i <= j < |order| ==> schedules[order[j]] == old(schedules)[order[j]]
        invariant removed <==> exists j :: 0 <= j < i && old(schedules)[order[j]].Holds(eventId)
        modifies this`schedules
      {
        var priority := order[i];
        var schedule := schedules[priority];
        assert forall j :: 0 <= j < |order| && j != i ==> order[j] != priority;
        removed := removed || schedule.Holds(eventId);
        schedules := schedules[priority := schedule.Without(eventId)];
        i := i + 1;
      }
      PurgedTierByTier(old(schedules), schedules, order, eventId, removed);
      PurgedKeepsInvariants(cueLists, old(schedules), order, eventId);
      CheckSchedule();
    }

    /** `switchPriority(eventId, priority)`: finds the event as `getEventById` would; if there is none
        the result is null and nothing changes. Otherwise it is moved as `Relocate` says. */
    method SwitchPriority(eventId: int, priority: int) returns (r: Result<Option<MediaEvent>>)
      requires Valid()
      modifies this`schedules, this`order, mediaServer
      ensures Valid()
      ensures r == Ok(None) <==> !HoldsAnywhere(old(schedules), eventId)
      ensures match FirstHolder(old(schedules), old(order), eventId)
              case None =>
                && schedules == old(schedules) && order == old(order)
                && mediaServer.current == old(mediaServer.current) && mediaServer.log == old(mediaServer.log)
              case Some(from) =>
                var e := old(schedules)[from].ById(eventId).value;
                && Some(e) == EventById(old(schedules), old(order), eventId)
                && RelocatedTiers(old(cueLists), old(schedules), old(order), from, priority, e, r, schedules, order)
                && Reconciled(old(cueLists), old(schedules), priority, e, r, schedules, now,
                              old(mediaServer.current), old(mediaServer.log), mediaServer.current, mediaServer.log)
    {
      EventByIdFindsAny(schedules, order, eventId);
      var i := 0;
      while i < |order|
        invariant 0 <= i <= |order|
        invariant FirstHolder(schedules, order[i..], eventId) == FirstHolder(schedules, order, eventId)
        invariant schedules == old(schedules) && order == old(order)
      {
        var from := order[i];
        var event := schedules[from].ById(eventId);
        if event.Some? {
          r := Relocate(from, event.value, priority);
          return;
        }
        assert order[i..][1..] == order[i + 1..];
        i := i + 1;
      }
      return Ok(None);
    }

    /** The body of `switchPriority` once the event `event` has been found in the tier at `from`: the
        event is re-added at `priority` first, and only when that succeeds is its id removed from
        the tier at `from`; when the re-add fails nothing changes. */
    method Relocate(from: int, event: MediaEvent, priority: int) returns (r: Result<Option<MediaEvent>>)
      requires Valid() && from in schedules && event in schedules[from].events
      modifies this`schedules, this`order, mediaServer
      ensures Valid()
      ensures r.Err? ==> schedules == old(schedules) && order == old(order)
      ensures RelocatedTiers(old(cueLists), old(schedules), old(order), from, priority, event, r, schedules, order)
      ensures Reconciled(old(cueLists), old(schedules), priority, event, r, schedules, now,
                         old(mediaServer.current), old(mediaServer.log), mediaServer.current, mediaServer.log)
    {
      var added := AddEvent(priority, event);
      if added.Err? {
        return Err(added.error);
      }
      // The Java code removes from the same Schedule object that addEvent may have just changed,
      // so the tier is read again here.
      PurgedTierKeepsInvariants(cueLists, schedules, order, from, event.id);
      schedules := schedules[from := schedules[from].Without(event.id)];
      CheckSchedule();
      return Ok(Some(event));
    }

    /** `pause`: sets the flag that makes the timer skip `checkSchedule`. */
    method Pause(paused: bool)
      modifies this`paused
      ensures this.paused == paused
    {
      this.paused := paused;
    }

    /** One run of the timer task: reconciles the server unless paused. */
    method Tick()
      modifies mediaServer
      ensures paused ==> mediaServer.current == old(mediaServer.current) && mediaServer.log == old(mediaServer.log)
      ensures !paused ==>
                mediaServer.current == Target(schedules, now)
                && mediaServer.log == old(mediaServer.log) + CommandsFor(Target(schedules, now), old(mediaServer.current))
    {
      if !paused {
        CheckSchedule();
      }
    }
  }

  /** Every priority `order` lists has a tier. */
  lemma OrderedKeysPresent(order: seq<int>, s: map<int, Tier>)
    requires OrderMatches(order, s)
    ensures forall j :: 0 <= j < |order| ==> order[j] in s
  {
    forall j | 0 <= j < |order|
      ensures order[j] in s
    {
      assert order[j] in order;
    }
  }

  /** Removing an id from every tier keeps the scheduler's invariants. */
  lemma PurgedKeepsInvariants(cueLists: set<CueList>, s: map<int, Tier>, order: seq<int>, id: int)
    requires TiersValid(s) && OrderMatches(order, s) && CueListsKnown(cueLists, s)
    ensures TiersValid(Purged(s, id)) && OrderMatches(order, Purged(s, id))
    ensures CueListsKnown(cueLists, Purged(s, id))
  {
  }

  /** Once every tier listed in `order` has dropped the id, the tiers are `Purged`, and some tier
      held the id exactly when one of the visited tiers did. */
  lemma PurgedTierByTier(s0: map<int, Tier>, s: map<int, Tier>, order: seq<int>, id: int, removed: bool)
    requires OrderMatches(order, s0) && s.Keys == s0.Keys
    requires forall j :: 0 <= j < |order| ==> order[j] in s0 && s[order[j]] == s0[order[j]].Without(id)
    requires removed <==> exists j :: 0 <= j < |order| && s0[order[j]].Holds(id)
    ensures s == Purged(s0, id)
    ensures removed == HoldsAnywhere(s0, id)
  {
    forall p | p in s
      ensures s[p] == Purged(s0, id)[p]
    {
      assert p in order;
      var j :| 0 <= j < |order| && order[j] == p;
    }
    if HoldsAnywhere(s0, id) {
      var p :| p in s0 && s0[p].Holds(id);
      assert p in order;
      var j :| 0 <= j < |order| && order[j] == p;
      assert s0[order[j]].Holds(id);
    }
    if removed {
      var j :| 0 <= j < |order| && s0[order[j]].Holds(id);
      assert order[j] in s0 && s0[order[j]].Holds(id);
    }
  }

  /** Removing one id from one tier keeps every invariant of the scheduler. */
  lemma PurgedTierKeepsInvariants(cueLists: set<CueList>, s: map<int, Tier>, order: seq<int>, p: int, id: int)
    requires p in s
    requires TiersValid(s) && OrderMatches(order, s) && CueListsKnown(cueLists, s)
    ensures TiersValid(s[p := s[p].Without(id)])
    ensures OrderMatches(order, s[p := s[p].Without(id)])
    ensures CueListsKnown(cueLists, s[p := s[p].Without(id)])
  {
  }
}
