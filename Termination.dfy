/** checkTermination: the body of the goroutine that asks the metadata
    service for a spot termination notice and, on a notice, runs the stop
    executable and ends the process. */
module Termination {
  import opened Outcomes

  const NotFound: int := 404

  /** The answer of http.Get on the termination-time endpoint. */
  datatype Poll = RequestError | Status(code: int)

  /** What exec.Command(stopPath) does: Start fails, or it starts and Wait
      reports an error or not. */
  datatype StopRun = StartFailed | Started(waitFailed: bool)

  /** The lines the goroutine prints. */
  datatype Message =
    | PollFailed       // "Error getting termination time: ..."
    | NoticeReceived   // "We got notification of termination. Calling stop and exiting."
    | StopStartFailed  // "Error trying to call stop: ..."
    | StopFailed       // "Stop call returned error: ..."
    | Exiting          // "Exiting."

  /** The effects of one run of the goroutine body. */
  datatype Effect = Effect(
    stopAttempted: bool,       // cmd.Start was attempted
    stopWaited: bool,        // cmd.Wait was called
    exit: Option<int>,       // os.Exit was called with this status
    bodyClosed: bool,        // resp.Body.Close was called
    slept: bool,             // the trailing five-second sleep was reached
    log: seq<Message>)

  /** What one cycle of the check sees: the poll, and how the stop executable
      would behave if it were invoked. */
  datatype Cycle = Cycle(poll: Poll, stop: StopRun)

  predicate IsNotice(p: Poll)
  {
    p.Status? && p.code != NotFound
  }

  /** The goroutine body: one poll, an action on a notice, one sleep. */
  function CheckTermination(c: Cycle): (e: Effect)
    ensures e.stopAttempted <==> IsNotice(c.poll)
    ensures !IsNotice(c.poll) ==> !e.stopAttempted && !e.stopWaited && e.exit == None
    ensures e.exit.Some? <==> IsNotice(c.poll) && c.stop.Started?
    ensures e.exit.Some? ==> e.exit == Some(0) && e.stopAttempted && e.stopWaited && !e.slept
    ensures e.exit.None? ==> e.slept
    ensures e.bodyClosed <==> c.poll.Status? && e.exit.None?
    ensures e.stopWaited <==> e.exit.Some?
    ensures (PollFailed in e.log) <==> c.poll.RequestError?
    ensures (NoticeReceived in e.log) <==> e.stopAttempted
    ensures (StopStartFailed in e.log) <==> e.stopAttempted && !e.stopWaited
    ensures (StopFailed in e.log) <==> e.exit.Some? && c.stop.waitFailed
    ensures (Exiting in e.log) <==> e.exit.Some?
    ensures e.log == [] <==> c.poll == Status(NotFound)
  {
    match c.poll
    case RequestError => Effect(false, false, None, false, true, [PollFailed])
    case Status(code) =>
      if code == NotFound then Effect(false, false, None, true, true, [])
      else match c.stop
        case StartFailed => Effect(true, false, None, true, true, [NoticeReceived, StopStartFailed])
        case Started(waitFailed) =>
          var logged := if waitFailed then [NoticeReceived, StopFailed, Exiting] else [NoticeReceived, Exiting];
          Effect(true, true, Some(0), false, false, logged)
  }

  predicate Exits(c: Cycle)
  {
    CheckTermination(c).exit.Some?
  }

  /** The goroutine as written, fed the cycles the environment would offer
      one after another: it consumes the first and ends. The result is the
      index of the cycle that ended the process. */
  function CheckTerminationOnce(cycles: seq<Cycle>): (r: Option<nat>)
    ensures r == Some(0) <==> |cycles| > 0 && Exits(cycles[0])
    ensures r.Some? ==> r.value == 0
  {
    if |cycles| > 0 && Exits(cycles[0]) then Some(0) else None
  }

  /** The watcher the comments in checkTermination describe: check, sleep
      five seconds, check again, until a check ends the process. The result
      is the index of the first cycle that ends the process, if any. */
  function WatchTermination(cycles: seq<Cycle>): (r: Option<nat>)
    ensures r.Some? ==> r.value < |cycles| && Exits(cycles[r.value])
    ensures r.Some? ==> forall j :: 0 <= j < r.value ==> !Exits(cycles[j])
    ensures r.None? <==> forall j :: 0 <= j < |cycles| ==> !Exits(cycles[j])
  {
    if |cycles| == 0 then None
    else if Exits(cycles[0]) then Some(0)
    else match WatchTermination(cycles[1..])
      case None => None
      case Some(k) => Some(k + 1)
  }

  /** Corrected watcher: repeated "not found" answers or failed polls never
      trigger the stop executable. */
  lemma {:induction false} WatchIgnoresNonNotices(cycles: seq<Cycle>)
    requires forall j :: 0 <= j < |cycles| ==> !IsNotice(cycles[j].poll)
    ensures WatchTermination(cycles) == None
  {
  }

  /** The goroutine as written misses any notice that arrives after its one
      poll; the looping watcher acts on it. */
  lemma {:induction false} SinglePollMissesLaterNotice(cycles: seq<Cycle>, k: nat)
    requires 0 < k < |cycles|
    requires !IsNotice(cycles[0].poll)
    requires IsNotice(cycles[k].poll) && cycles[k].stop.Started?
    ensures CheckTerminationOnce(cycles) == None
    ensures WatchTermination(cycles).Some?
    ensures WatchTermination(cycles).value <= k
  {
  }

  /** Polls answering 404, 404, 200 with a stop executable that runs: the
      code as written takes no action at all. */
  lemma NoticeOnThirdPoll()
    ensures var cycles := [Cycle(Status(404), Started(false)), Cycle(Status(404), Started(false)),
                           Cycle(Status(200), Started(false))];
      && CheckTerminationOnce(cycles) == None
      && WatchTermination(cycles) == Some(2)
  {
  }
}
