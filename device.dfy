/** The media server the scheduler drives (`ArKaos`), reduced to what the scheduler sees of it:
    the cue list it reports as playing, and the start and stop commands it has been sent. */
module Device {
  import opened Entities

  datatype Command = Start(cueList: CueList) | Stop

  /** What the server reports as playing after it has obeyed `cmd`, whatever it played before. */
  function Apply(cmd: Command): (r: Option<CueList>)
  {
    match cmd
    case Start(c) => Some(c)
    case Stop => None
  }

  /** What the server reports as playing after it has obeyed `cmds` in order. */
  function Settle(current: Option<CueList>, cmds: seq<Command>): (r: Option<CueList>)
    decreases |cmds|
  {
    if cmds == [] then current else Settle(Apply(cmds[0]), cmds[1..])
  }

  /** The commands `Scheduler.checkSchedule` sends when the cue list that should be playing is
      `target` and the server reports `current`: at most one, it brings the server to `target`, and
      none at all when the server already shows the target. */
  function CommandsFor(target: Option<CueList>, current: Option<CueList>): (cmds: seq<Command>)
    ensures |cmds| <= 1
    ensures Settle(current, cmds) == target
    ensures cmds == [] <==> current == target
  {
    match target
    case None => if current.Some? then [Stop] else []
    case Some(c) => if current != Some(c) then [Start(c)] else []
  }

  /** Reconciling twice in a row sends nothing the second time. */
  lemma ReconcileIsIdempotent(target: Option<CueList>, current: Option<CueList>)
    ensures CommandsFor(target, Settle(current, CommandsFor(target, current))) == []
  {
  }

  class MediaServer {
    /** The cue list the server reports as playing (`getCurrentCueList()`), None for null. */
    var current: Option<CueList>
    /** Every start and stop command the server has received, oldest first. */
    ghost var log: seq<Command>

    constructor (initial: Option<CueList>)
      ensures current == initial && log == []
    {
      current := initial;
      log := [];
    }

    method GetCurrentCueList() returns (r: Option<CueList>)
      ensures r == current
    {
      r := current;
    }

    method StartCueList(c: CueList)
      modifies this
      ensures current == Some(c)
      ensures log == old(log) + [Start(c)]
    {
      current := Some(c);
      log := log + [Start(c)];
    }

    method StopCueList()
      modifies this
      ensures current == None
      ensures log == old(log) + [Stop]
    {
      current := None;
      log := log + [Stop];
    }
  }
}
