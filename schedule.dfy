/** One priority tier of the scheduler: the events of one `Schedule`, in the order they were added.
    `Schedule` itself is not part of this model; its operations are modelled here as the scheduler
    uses them (find the active event, find by id, find by cue list, add with conflict check, remove). */
module Schedule {
  import opened Entities

  /** The first event of `es` that is active at `t`. */
  function FirstActive(es: seq<MediaEvent>, t: Instant): (r: Option<MediaEvent>)
    ensures r.Some? ==> r.value in es && r.value.IsActiveAt(t)
    ensures r.None? ==> forall x :: x in es ==> !x.IsActiveAt(t)
  {
    if es == [] then None
    else if es[0].IsActiveAt(t) then Some(es[0])
    else FirstActive(es[1..], t)
  }

  /** The first event of `es` whose id is `id`. */
  function FirstWithId(es: seq<MediaEvent>, id: int): (r: Option<MediaEvent>)
    ensures r.Some? ==> r.value in es && r.value.id == id
    ensures r.None? ==> forall x :: x in es ==> x.id != id
  {
    if es == [] then None
    else if es[0].id == id then Some(es[0])
    else FirstWithId(es[1..], id)
  }

  /** `es` without the events whose id is `id`, the others kept in order. */
  function WithoutId(es: seq<MediaEvent>, id: int): (r: seq<MediaEvent>)
    ensures forall x :: x in r <==> x in es && x.id != id
    ensures |r| <= |es|
  {
    if es == [] then []
    else if es[0].id == id then WithoutId(es[1..], id)
    else [es[0]] + WithoutId(es[1..], id)
  }

  /** The events of `es` that play `c`, in order. */
  function OnCueList(es: seq<MediaEvent>, c: CueList): (r: seq<MediaEvent>)
    ensures forall x :: x in r <==> x in es && x.cueList == c
    ensures |r| <= |es|
  {
    if es == [] then []
    else if es[0].cueList == c then [es[0]] + OnCueList(es[1..], c)
    else OnCueList(es[1..], c)
  }

  datatype Tier = Tier(events: seq<MediaEvent>)
  {
    /** The invariant the conflict check keeps: at most one event of the tier is active at any instant. */
    ghost predicate Valid() {
      forall x, y, t :: x in events && y in events && x.IsActiveAt(t) && y.IsActiveAt(t) ==> x == y
    }

    /** `Schedule.getEvent(now)`: the event of this tier active at `t`, if any. In a valid tier it is
        the only one. */
    function ActiveAt(t: Instant): (r: Option<MediaEvent>)
      ensures r.Some? ==> r.value in events && r.value.IsActiveAt(t)
      ensures r.None? <==> forall x :: x in events ==> !x.IsActiveAt(t)
      ensures Valid() ==> forall x :: x in events && x.IsActiveAt(t) ==> r == Some(x)
    {
      FirstActive(events, t)
    }

    /** Whether some event of this tier has id `id`. */
    predicate Holds(id: int) {
      exists x :: x in events && x.id == id
    }

    /** `Schedule.getEventById`. */
    function ById(id: int): (r: Option<MediaEvent>)
      ensures r.Some? ==> r.value in events && r.value.id == id
      ensures r.None? <==> !Holds(id)
    {
      FirstWithId(events, id)
    }

    /** `Schedule.getEventsByCueList`. */
    function ByCueList(c: CueList): (r: seq<MediaEvent>)
      ensures forall x :: x in r <==> x in events && x.cueList == c
    {
      OnCueList(events, c)
    }

    /** The tier after `Schedule.removeEvent(id)`: every event with that id is gone, the others stay. */
    function Without(id: int): (r: Tier)
      ensures !r.Holds(id)
      ensures forall x: MediaEvent :: x.id != id ==> (x in r.events <==> x in events)
      ensures Valid() ==> r.Valid()
    {
      Tier(WithoutId(events, id))
    }

    /** Whether adding `e` would make two events of the tier active at the same instant. */
    predicate Conflicts(e: MediaEvent) {
      exists x :: x in events && x.Overlaps(e)
    }

    /** `Schedule.addEvent`: fails with ScheduleConflict, leaving the tier as it was, when `e` overlaps
        an event already in it; otherwise appends `e`. Either way the tier stays valid. */
    function Add(e: MediaEvent): (r: Result<Tier>)
      ensures r.Err? <==> Conflicts(e)
      ensures r.Err? ==> r.error == ScheduleConflict
      ensures r.Ok? ==> r.value.events == events + [e]
      ensures Valid() && r.Ok? ==> r.value.Valid()
    {
      if Conflicts(e) then Err(ScheduleConflict)
      else
        var added := Tier(events + [e]);
        assert Valid() ==> added.Valid() by {
          if Valid() {
            forall x, y, t | x in added.events && y in added.events && x.IsActiveAt(t) && y.IsActiveAt(t)
              ensures x == y
            {
              if x != e && y == e {
                assert x in events && x.Overlaps(e);
              } else if x == e && y != e {
                assert y in events && y.Overlaps(e);
              }
            }
          }
        }
        Ok(added)
    }
  }

  /** The fresh tier `new Schedule()` creates. */
  const EmptyTier: Tier := Tier([])

  /** In a valid tier, the event `ActiveAt` finds is exactly the event of the tier active at `t`. */
  lemma ActiveAtIsTheActiveEvent(tier: Tier, t: Instant, e: MediaEvent)
    requires tier.Valid()
    ensures tier.ActiveAt(t) == Some(e) <==> e in tier.events && e.IsActiveAt(t)
  {
  }
}
