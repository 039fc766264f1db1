/**
 * The external request bridge of scripts/bioprintly/request_handling.py: a
 * request file carries a timestamp and a batch of commands; a request newer
 * than the watermark is enqueued, waited for until its last command (the
 * "caboose") is in the history or the program shuts down, and answered with a
 * response file naming its timestamp.
 *
 * The other threads run only while the bridge waits or sleeps; what they do
 * is an input, a sequence of events: an iteration of the service loop with
 * its clock readings, or the window being closed (which saves the state and
 * sets `shutting_down`, as the GUI's close confirmation does). The request
 * file is read as a value: `None` when it is missing or is not valid JSON.
 */
module RequestHandling {
  import opened Wrappers
  import opened State
  import opened Service

  /** `Request`. */
  datatype Request = Request(timestamp: int, commands: seq<Specifics>)

  /** `Response`. */
  datatype Response = Response(completedRequestTimestamp: int)

  // ---------------------------------------------------------------- the completion test

  /**
   * `command_with_ordinal_is_complete` on the history: walking from the newest
   * entry, an ordinal below the target means no, the target itself means yes.
   */
  function ScanNewestFirst(history: seq<Command>, target: int): bool
    decreases |history|
  {
    if |history| == 0 then false
    else
      var last := history[|history| - 1];
      if last.ordinal < target then false
      else if last.ordinal == target then true
      else ScanNewestFirst(history[..|history| - 1], target)
  }

  /** Ordinals strictly increase from the oldest entry to the newest. */
  predicate Increasing(cs: seq<Command>) {
    forall i, j :: 0 <= i < j < |cs| ==> cs[i].ordinal < cs[j].ordinal
  }

  /** The scan says yes only when the target is in the history, in any history. */
  lemma {:induction false} ScanFindsOnlyTarget(history: seq<Command>, target: int)
    ensures ScanNewestFirst(history, target) ==> target in Ordinals(history)
    decreases |history|
  {
    if |history| > 0 && history[|history| - 1].ordinal > target {
      var init := history[..|history| - 1];
      ScanFindsOnlyTarget(init, target);
      if ScanNewestFirst(init, target) {
        var i :| 0 <= i < |init| && Ordinals(init)[i] == target;
        assert Ordinals(history)[i] == target;
      }
    }
  }

  /**
   * On a history whose ordinals increase (the order in which ticks finish the
   * queue), the scan says yes exactly when the target is in the history.
   */
  lemma {:induction false} ScanDecidesMembership(history: seq<Command>, target: int)
    requires Increasing(history)
    ensures ScanNewestFirst(history, target) <==> target in Ordinals(history)
    decreases |history|
  {
    ScanFindsOnlyTarget(history, target);
    if |history| > 0 {
      var init := history[..|history| - 1];
      var last := history[|history| - 1];
      ScanDecidesMembership(init, target);
      if target in Ordinals(history) {
        var i :| 0 <= i < |history| && Ordinals(history)[i] == target;
        if i < |init| {
          assert Ordinals(init)[i] == target;
          assert last.ordinal > target;
        }
      }
    }
  }

  /** `command_with_ordinal_is_complete`: the reverse for-loop over the history. */
  method CommandWithOrdinalIsComplete(state: GlobalState, target: int) returns (done: bool)
    ensures done == ScanNewestFirst(state.persistent.commandHistory, target)
  {
    var history := state.persistent.commandHistory;
    var i := |history|;
    assert history[..i] == history;
    while i > 0
      invariant 0 <= i <= |history|
      invariant ScanNewestFirst(history, target) == ScanNewestFirst(history[..i], target)
    {
      var finished := history[i - 1];
      assert history[..i][..i - 1] == history[..i - 1];
      if finished.ordinal < target {
        return false;
      } else if finished.ordinal == target {
        return true;
      }
      i := i - 1;
    }
    return false;
  }

  // ---------------------------------------------------------------- the other threads

  /** What the other threads do while the bridge waits or sleeps. */
  datatype Event =
    | ServiceIteration(times: LoopTimes)   // one iteration of `run_service`'s loop
    | WindowClosed                          // the close confirmation: save, then `shutting_down`

  /** The shared state, and whether the service thread is still running (an exception ends it). */
  datatype Threads = Threads(rig: Rig, serviceAlive: bool)

  /** One event. The service loop does nothing once it has ended, by exception or by shutdown. */
  function Interleave(t: Threads, e: Event): Threads {
    match e
    case ServiceIteration(times) =>
      if !t.serviceAlive || t.rig.n.shuttingDown then t
      else
        var st := LoopBody(t.rig, times);
        Threads(st.rig, st.outcome.Pass?)
    case WindowClosed =>
      Threads(t.rig.(n := t.rig.n.(shuttingDown := true), savefile := Some(SaveImage(t.rig.p))), t.serviceAlive)
  }

  /** The events during a `sleep_briefly`. */
  function RunEvents(t: Threads, events: seq<Event>): Threads
    decreases |events|
  {
    if |events| == 0 then t else RunEvents(Interleave(t, events[0]), events[1..])
  }

  /**
   * The waiting loop of `await_completion`: poll until shutdown or until the
   * caboose is complete, with one `sleep_briefly` (its events in `sleeps`)
   * between polls; it stops observing when the sleeps run out.
   */
  function Wait(t: Threads, caboose: int, sleeps: seq<seq<Event>>): Threads
    decreases |sleeps|
  {
    if t.rig.n.shuttingDown || ScanNewestFirst(t.rig.p.commandHistory, caboose) || |sleeps| == 0 then t
    else Wait(RunEvents(t, sleeps[0]), caboose, sleeps[1..])
  }

  // ---------------------------------------------------------------- one request

  /**
   * The ordinal `await_completion` waits for: that of the last command it
   * enqueued, or its initial 0 when the batch is empty.
   */
  function Caboose(p: Persistent, commands: seq<Specifics>): int {
    if |commands| == 0 then 0 else p.nextCommandOrdinal + |commands| - 1
  }

  /** The inputs of one iteration of `handle_requests_repeatedly`. */
  datatype Iteration = Iteration(
    read: Option<Request>,       // the request file, when it can be read
    enqueueTimes: seq<int>,      // the clock reading of each enqueue
    waitEvents: seq<seq<Event>>, // the other threads' events in each sleep while waiting
    sleepEvents: seq<Event>)     // the other threads' events during the closing sleep

  /** An iteration's clock readings cover the commands it enqueues. */
  predicate Timed(it: Iteration) {
    it.read.Some? ==> |it.enqueueTimes| == |it.read.value.commands|
  }

  /** The state after an iteration, the response it wrote, and whether it raised. */
  datatype Handled = Handled(threads: Threads, response: Option<Response>, outcome: Outcome)

  /**
   * One iteration. `asWritten` selects the source's call
   * `enqueue_command(state, 'Klipper', command)`, which passes one argument
   * too many and so raises `TypeError` before anything is enqueued; the rest
   * of the model uses the call as evidently intended, returning the ordinal.
   */
  function HandleOnceWith(t: Threads, it: Iteration, asWritten: bool): Handled
    requires Timed(it)
  {
    match it.read
    case None => Handled(RunEvents(t, it.sleepEvents), None, Pass)
    case Some(req) =>
      if req.timestamp <= t.rig.p.requestHandlingWatermark then Handled(RunEvents(t, it.sleepEvents), None, Pass)
      else if asWritten && |req.commands| > 0 then Handled(t, None, Fail(TypeError))
      else
        var p := t.rig.p;
        var t1 := Threads(t.rig.(p := EnqueuedAll(p, req.commands, it.enqueueTimes)), t.serviceAlive);
        var t2 := Wait(t1, Caboose(p, req.commands), it.waitEvents);
        var t3 := Threads(t2.rig.(p := t2.rig.p.(requestHandlingWatermark := req.timestamp)), t2.serviceAlive);
        Handled(RunEvents(t3, it.sleepEvents), Some(Response(req.timestamp)), Pass)
  }

  function HandleOnce(t: Threads, it: Iteration): Handled
    requires Timed(it)
  {
    HandleOnceWith(t, it, false)
  }

  function HandleOnceAsWritten(t: Threads, it: Iteration): Handled
    requires Timed(it)
  {
    HandleOnceWith(t, it, true)
  }

  /** The state and the responses written, in order, by some iterations. */
  datatype BridgeRun = BridgeRun(threads: Threads, responses: seq<Response>)

  function Prefixed(responses: seq<Response>, run: BridgeRun): BridgeRun {
    BridgeRun(run.threads, responses + run.responses)
  }

  lemma PrefixedTwice(a: seq<Response>, b: seq<Response>, run: BridgeRun)
    ensures Prefixed(a, Prefixed(b, run)) == Prefixed(a + b, run)
  {
    assert a + (b + run.responses) == (a + b) + run.responses;
  }

  /**
   * The loop of `handle_requests_repeatedly`, over the iterations described
   * by `its`, until shutdown; the folder of the request and response files is
   * that of the save file.
   */
  function HandleRepeatedly(t: Threads, its: seq<Iteration>): BridgeRun
    requires forall i :: 0 <= i < |its| ==> Timed(its[i])
    decreases |its|
  {
    if |its| == 0 || t.rig.n.shuttingDown then BridgeRun(t, [])
    else
      var h := HandleOnce(t, its[0]);
      Prefixed(if h.response.Some? then [h.response.value] else [], HandleRepeatedly(h.threads, its[1..]))
  }

  /** The whole bridge: its run, and whether it ended by raising. */
  datatype BridgeEnd = BridgeEnd(run: BridgeRun, outcome: Outcome)

  /** The key `handle_requests_repeatedly` reads before its loop. */
  const FOLDER_KEY_AS_WRITTEN: string := "savefolder_path"

  /**
   * `handle_requests_repeatedly` as written: it first looks up
   * `nonpersistent['savefolder_path']`, then runs its loop. `HandleRepeatedly`
   * is the loop as evidently intended, with the folder of `savefile_path`.
   */
  function HandleRepeatedlyAsWritten(t: Threads, its: seq<Iteration>): BridgeEnd
    requires forall i :: 0 <= i < |its| ==> Timed(its[i])
  {
    if FOLDER_KEY_AS_WRITTEN in INITIAL_NONPERSISTENT_KEYS then BridgeEnd(HandleRepeatedly(t, its), Pass)
    else BridgeEnd(BridgeRun(t, []), Fail(KeyError(FOLDER_KEY_AS_WRITTEN)))
  }

  /**
   * As written, the bridge raises `KeyError` before its first iteration: the
   * initial state has `savefile_path` but no `savefolder_path`, so nothing is
   * read, enqueued or answered and the state is unchanged.
   */
  lemma SavefolderLookupRaises(t: Threads, its: seq<Iteration>)
    requires forall i :: 0 <= i < |its| ==> Timed(its[i])
    ensures HandleRepeatedlyAsWritten(t, its) == BridgeEnd(BridgeRun(t, []), Fail(KeyError("savefolder_path")))
    ensures "savefile_path" in INITIAL_NONPERSISTENT_KEYS
  {
  }

  // ---------------------------------------------------------------- what the other threads change

  /**
   * The other threads never touch the watermark or the ordinal counter; once
   * the program is shutting down, or the service thread has ended, it stays so.
   */
  predicate KeepsBridgeState(t: Threads, u: Threads) {
    && u.rig.p.requestHandlingWatermark == t.rig.p.requestHandlingWatermark
    && u.rig.p.nextCommandOrdinal == t.rig.p.nextCommandOrdinal
    && (t.rig.n.shuttingDown ==> u.rig.n.shuttingDown)
    && (!t.serviceAlive ==> !u.serviceAlive)
  }

  lemma InterleaveFrame(t: Threads, e: Event)
    ensures KeepsBridgeState(t, Interleave(t, e))
  {
    match e
    case ServiceIteration(times) =>
      if t.serviceAlive && !t.rig.n.shuttingDown {
        var r := t.rig;
        var r1 := r.(p := r.p.(processingLoopMeasuredDelta := times.deltaReading - r.p.processingLoopLastStart,
                               processingLoopLastStart := times.startReading));
        if r1.n.processingEnabled {
          TickFrame(r1, times.processReading);
        }
      }
    case WindowClosed =>
  }

  lemma {:induction false} RunEventsFrame(t: Threads, events: seq<Event>)
    ensures KeepsBridgeState(t, RunEvents(t, events))
    decreases |events|
  {
    if |events| > 0 {
      InterleaveFrame(t, events[0]);
      RunEventsFrame(Interleave(t, events[0]), events[1..]);
    }
  }

  /**
   * The wait keeps the bridge's state too, and it ends in one of three ways:
   * the program is shutting down, the caboose is complete, or every sleep
   * has been taken (the state is then that after all their events).
   */
  lemma {:induction false} WaitEnds(t: Threads, caboose: int, sleeps: seq<seq<Event>>)
    ensures var u := Wait(t, caboose, sleeps);
      && KeepsBridgeState(t, u)
      && (u.rig.n.shuttingDown || ScanNewestFirst(u.rig.p.commandHistory, caboose) || u == RunAll(t, sleeps))
    decreases |sleeps|
  {
    if !t.rig.n.shuttingDown && !ScanNewestFirst(t.rig.p.commandHistory, caboose) && |sleeps| > 0 {
      var t1 := RunEvents(t, sleeps[0]);
      RunEventsFrame(t, sleeps[0]);
      WaitEnds(t1, caboose, sleeps[1..]);
    }
  }

  /** The events of several sleeps, one after the other. */
  function RunAll(t: Threads, sleeps: seq<seq<Event>>): Threads
    decreases |sleeps|
  {
    if |sleeps| == 0 then t else RunAll(RunEvents(t, sleeps[0]), sleeps[1..])
  }

  // ---------------------------------------------------------------- what one iteration does

  /**
   * The caboose is the ordinal of the batch's last command, now the newest in
   * the queue: every queued ordinal is at most the caboose.
   */
  lemma CabooseIsLastEnqueued(p: Persistent, batch: seq<Specifics>, times: seq<int>)
    requires |times| == |batch| && |batch| > 0
    requires OrdinalsIncreasingBelow(p.commandQueue, p.nextCommandOrdinal)
    ensures var q := EnqueuedAll(p, batch, times).commandQueue;
      && |q| == |p.commandQueue| + |batch|
      && q[|q| - 1] == Command(Caboose(p, batch), times[|batch| - 1], None, None, batch[|batch| - 1])
      && forall i :: 0 <= i < |q| ==> q[i].ordinal <= Caboose(p, batch)
  {
    EnqueuedAllNumbersConsecutively(p, batch, times);
  }

  /**
   * One iteration answers exactly the readable requests newer than the
   * watermark, with their own timestamp, whether the wait ended by completion
   * or by shutdown; it then moves the watermark to that timestamp and has
   * numbered the request's commands from the counter. Anything else only
   * sleeps. It never raises.
   */
  lemma HandleOnceAnswersFreshRequests(t: Threads, it: Iteration)
    requires Timed(it)
    ensures var h := HandleOnce(t, it);
      && h.outcome == Pass
      && (h.response.Some? <==> it.read.Some? && it.read.value.timestamp > t.rig.p.requestHandlingWatermark)
      && (h.response.Some? ==>
            && h.response.value == Response(it.read.value.timestamp)
            && h.threads.rig.p.requestHandlingWatermark == it.read.value.timestamp
            && h.threads.rig.p.nextCommandOrdinal == t.rig.p.nextCommandOrdinal + |it.read.value.commands|)
      && (h.response.None? ==> h.threads == RunEvents(t, it.sleepEvents))
  {
    if it.read.Some? && it.read.value.timestamp > t.rig.p.requestHandlingWatermark {
      var req := it.read.value;
      var p := t.rig.p;
      EnqueuedAllFrame(p, req.commands, it.enqueueTimes);
      var t1 := Threads(t.rig.(p := EnqueuedAll(p, req.commands, it.enqueueTimes)), t.serviceAlive);
      WaitEnds(t1, Caboose(p, req.commands), it.waitEvents);
      var t2 := Wait(t1, Caboose(p, req.commands), it.waitEvents);
      var t3 := Threads(t2.rig.(p := t2.rig.p.(requestHandlingWatermark := req.timestamp)), t2.serviceAlive);
      RunEventsFrame(t3, it.sleepEvents);
    }
  }

  /**
   * A request already answered is not answered, or enqueued, again: the
   * watermark has reached its timestamp, so the iteration only sleeps.
   */
  lemma AnsweredRequestIsIgnored(t: Threads, it: Iteration, again: Iteration)
    requires Timed(it) && Timed(again) && again.read == it.read
    requires HandleOnce(t, it).response.Some?
    ensures HandleOnce(HandleOnce(t, it).threads, again).response.None?
    ensures HandleOnce(HandleOnce(t, it).threads, again).threads ==
      RunEvents(HandleOnce(t, it).threads, again.sleepEvents)
  {
    HandleOnceAnswersFreshRequests(t, it);
    HandleOnceAnswersFreshRequests(HandleOnce(t, it).threads, again);
  }

  /**
   * Timestamps that strictly increase from above `w`, and the last of them
   * (`w` when there is none).
   */
  predicate Ascending(rs: seq<Response>, w: int)
    decreases |rs|
  {
    |rs| == 0 || (rs[0].completedRequestTimestamp > w && Ascending(rs[1..], rs[0].completedRequestTimestamp))
  }

  function LastAnswered(rs: seq<Response>, w: int): int
    decreases |rs|
  {
    if |rs| == 0 then w else LastAnswered(rs[1..], rs[0].completedRequestTimestamp)
  }

  /** `Ascending` and `LastAnswered` spelled out: all above `w`, pairwise increasing, and the final element. */
  lemma {:induction false} AscendingMeans(rs: seq<Response>, w: int)
    ensures Ascending(rs, w) <==>
      && (forall i :: 0 <= i < |rs| ==> rs[i].completedRequestTimestamp > w)
      && (forall i, j :: 0 <= i < j < |rs| ==> rs[i].completedRequestTimestamp < rs[j].completedRequestTimestamp)
    ensures LastAnswered(rs, w) == if |rs| == 0 then w else rs[|rs| - 1].completedRequestTimestamp
    decreases |rs|
  {
    if |rs| > 0 {
      var tail := rs[1..];
      var w' := rs[0].completedRequestTimestamp;
      AscendingMeans(tail, w');
      if Ascending(rs, w) {
        forall i, j | 0 <= i < j < |rs|
          ensures rs[i].completedRequestTimestamp < rs[j].completedRequestTimestamp
        {
          assert rs[j] == tail[j - 1];
          if i > 0 {
            assert rs[i] == tail[i - 1];
          }
        }
      }
      if (forall i, j :: 0 <= i < j < |rs| ==> rs[i].completedRequestTimestamp < rs[j].completedRequestTimestamp)
        && (forall i :: 0 <= i < |rs| ==> rs[i].completedRequestTimestamp > w) {
        forall i | 0 <= i < |tail| ensures tail[i].completedRequestTimestamp > w' {
          assert tail[i] == rs[i + 1];
        }
        forall i, j | 0 <= i < j < |tail|
          ensures tail[i].completedRequestTimestamp < tail[j].completedRequestTimestamp
        {
          assert tail[i] == rs[i + 1] && tail[j] == rs[j + 1];
        }
      }
      if |tail| > 0 {
        assert tail[|tail| - 1] == rs[|rs| - 1];
      }
    }
  }

  /**
   * Over any run: every response answers a request newer than the starting
   * watermark, the responses' timestamps strictly increase, and the watermark
   * ends at the last one answered (where it started when none was), so it
   * never falls.
   */
  lemma {:induction false} ResponsesFollowTheWatermark(t: Threads, its: seq<Iteration>)
    requires forall i :: 0 <= i < |its| ==> Timed(its[i])
    ensures var run := HandleRepeatedly(t, its);
      && |run.responses| <= |its|
      && Ascending(run.responses, t.rig.p.requestHandlingWatermark)
      && run.threads.rig.p.requestHandlingWatermark == LastAnswered(run.responses, t.rig.p.requestHandlingWatermark)
    decreases |its|
  {
    if |its| > 0 && !t.rig.n.shuttingDown {
      var h := HandleOnce(t, its[0]);
      HandleOnceAnswersFreshRequests(t, its[0]);
      ResponsesFollowTheWatermark(h.threads, its[1..]);
      if h.response.None? {
        RunEventsFrame(t, its[0].sleepEvents);
        var rest := HandleRepeatedly(h.threads, its[1..]);
        assert [] + rest.responses == rest.responses;
      } else {
        var rest := HandleRepeatedly(h.threads, its[1..]);
        assert ([h.response.value] + rest.responses)[1..] == rest.responses;
      }
    }
  }

  /** Hence the watermark never falls. */
  lemma WatermarkNeverFalls(t: Threads, its: seq<Iteration>)
    requires forall i :: 0 <= i < |its| ==> Timed(its[i])
    ensures HandleRepeatedly(t, its).threads.rig.p.requestHandlingWatermark >= t.rig.p.requestHandlingWatermark
  {
    var run := HandleRepeatedly(t, its);
    ResponsesFollowTheWatermark(t, its);
    AscendingMeans(run.responses, t.rig.p.requestHandlingWatermark);
  }

  /**
   * The call as written: a fresh request with commands raises `TypeError`
   * before enqueueing anything, so it is never answered and its commands
   * never run; the exception ends the bridge's thread.
   */
  lemma EnqueueArityRaises(t: Threads, it: Iteration)
    requires Timed(it) && it.read.Some? && |it.read.value.commands| > 0
    requires it.read.value.timestamp > t.rig.p.requestHandlingWatermark
    ensures HandleOnceAsWritten(t, it) == Handled(t, None, Fail(TypeError))
    ensures HandleOnce(t, it).response == Some(Response(it.read.value.timestamp))
  {
    HandleOnceAnswersFreshRequests(t, it);
  }

  // ---------------------------------------------------------------- the imperative code

  /**
   * `enqueue_command` as `await_completion` evidently means to call it: with
   * the state and the command, returning the ordinal it assigned.
   */
  method EnqueueReturningOrdinal(state: GlobalState, specifics: Specifics, now: int) returns (ordinal: int)
    modifies state
    ensures state.persistent == Enqueued(old(state.persistent), specifics, now)
    ensures state.nonpersistent == old(state.nonpersistent) && state.savefile == old(state.savefile)
    ensures ordinal == old(state.persistent.nextCommandOrdinal)
  {
    ordinal := state.persistent.nextCommandOrdinal;
    state.EnqueueCommand(specifics, now);
  }

  /** One event of the other threads on the state; `alive` says whether the service thread still runs. */
  method InterleaveStep(state: GlobalState, alive: bool, e: Event) returns (alive': bool)
    modifies state
    ensures Threads(state.Model(), alive') == Interleave(Threads(old(state.Model()), alive), e)
  {
    alive' := alive;
    match e
    case ServiceIteration(times) =>
      if alive && !state.nonpersistent.shuttingDown {
        var outcome := LoopIteration(state, times);
        alive' := outcome.Pass?;
      }
    case WindowClosed =>
      state.SaveStateToDisk();
      state.nonpersistent := state.nonpersistent.(shuttingDown := true);
  }

  /** `sleep_briefly`, during which the other threads act. */
  method SleepBriefly(state: GlobalState, alive: bool, events: seq<Event>) returns (alive': bool)
    modifies state
    ensures Threads(state.Model(), alive') == RunEvents(Threads(old(state.Model()), alive), events)
  {
    alive' := alive;
    for i := 0 to |events|
      invariant RunEvents(Threads(old(state.Model()), alive), events) == RunEvents(Threads(state.Model(), alive'), events[i..])
    {
      assert events[i..][1..] == events[i + 1..];
      alive' := InterleaveStep(state, alive', events[i]);
    }
    assert events[|events|..] == [];
  }

  /** `await_completion`: enqueue the batch, then poll for the caboose between sleeps. */
  method AwaitCompletion(state: GlobalState, alive: bool, commands: seq<Specifics>, times: seq<int>,
                         sleeps: seq<seq<Event>>) returns (alive': bool)
    requires |times| == |commands|
    modifies state
    ensures Threads(state.Model(), alive') ==
      Wait(Threads(old(state.Model()).(p := EnqueuedAll(old(state.persistent), commands, times)), alive),
           Caboose(old(state.persistent), commands), sleeps)
  {
    ghost var p0 := state.persistent;
    var caboose := 0;
    for i := 0 to |commands|
      invariant state.nonpersistent == old(state.nonpersistent) && state.savefile == old(state.savefile)
      invariant EnqueuedAll(p0, commands, times) == EnqueuedAll(state.persistent, commands[i..], times[i..])
      invariant state.persistent.nextCommandOrdinal == p0.nextCommandOrdinal + i
      invariant caboose == Caboose(p0, commands[..i])
    {
      assert commands[i..][1..] == commands[i + 1..] && times[i..][1..] == times[i + 1..];
      caboose := EnqueueReturningOrdinal(state, commands[i], times[i]);
    }
    assert commands[..|commands|] == commands;
    alive' := alive;
    var j := 0;
    while j < |sleeps| && !state.nonpersistent.shuttingDown
      invariant 0 <= j <= |sleeps|
      invariant Wait(Threads(old(state.Model()).(p := EnqueuedAll(old(state.persistent), commands, times)), alive),
                     caboose, sleeps) == Wait(Threads(state.Model(), alive'), caboose, sleeps[j..])
      decreases |sleeps| - j
    {
      var done := CommandWithOrdinalIsComplete(state, caboose);
      if done {
        break;
      }
      assert sleeps[j..][1..] == sleeps[j + 1..];
      alive' := SleepBriefly(state, alive', sleeps[j]);
      j := j + 1;
    }
  }

  /** One iteration of `handle_requests_repeatedly`'s loop; returns the response it writes, if any. */
  method HandleOnceStep(state: GlobalState, alive: bool, it: Iteration) returns (alive': bool, response: Option<Response>)
    requires Timed(it)
    modifies state
    ensures Handled(Threads(state.Model(), alive'), response, Pass) == HandleOnce(Threads(old(state.Model()), alive), it)
  {
    alive' := alive;
    response := None;
    if it.read.Some? && it.read.value.timestamp > state.persistent.requestHandlingWatermark {
      var req := it.read.value;
      alive' := AwaitCompletion(state, alive, req.commands, it.enqueueTimes, it.waitEvents);
      state.persistent := state.persistent.(requestHandlingWatermark := req.timestamp);
      response := Some(Response(req.timestamp));
    }
    alive' := SleepBriefly(state, alive', it.sleepEvents);
  }

  /** `handle_requests_repeatedly`: iterate until shutdown; returns the responses written, in order. */
  method HandleRequestsRepeatedly(state: GlobalState, alive: bool, its: seq<Iteration>)
    returns (alive': bool, responses: seq<Response>)
    requires forall i :: 0 <= i < |its| ==> Timed(its[i])
    modifies state
    ensures BridgeRun(Threads(state.Model(), alive'), responses) == HandleRepeatedly(Threads(old(state.Model()), alive), its)
  {
    alive' := alive;
    responses := [];
    var i := 0;
    while i < |its| && !state.nonpersistent.shuttingDown
      invariant 0 <= i <= |its|
      invariant HandleRepeatedly(Threads(old(state.Model()), alive), its) ==
        Prefixed(responses, HandleRepeatedly(Threads(state.Model(), alive'), its[i..]))
      decreases |its| - i
    {
      assert its[i..][1..] == its[i + 1..];
      ghost var before := Threads(state.Model(), alive');
      var response;
      alive', response := HandleOnceStep(state, alive', its[i]);
      var written := if response.Some? then [response.value] else [];
      ghost var rest := HandleRepeatedly(Threads(state.Model(), alive'), its[i + 1..]);
      assert HandleRepeatedly(before, its[i..]) == Prefixed(written, rest);
      PrefixedTwice(responses, written, rest);
      responses := responses + written;
      i := i + 1;
    }
  }
}
