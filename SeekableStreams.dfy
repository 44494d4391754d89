/**
 * The range-fetch engine of src/utils/SeekableStream.ts.
 *
 * The source's `tick` is asynchronous: it suspends on the range request and
 * on `refreshInfoFunction`, and the response body delivers its chunks, end and
 * error through callbacks. Here every resumption is an explicit handler: the
 * class `SeekableStream` has one method per callback, and the value each
 * awaited call resolved to (the refreshed information, the output buffer's
 * `readableLength` at the moment the source reads it) is a parameter.
 *
 * `Session` is the engine's observable state as a value; every method of the
 * class is specified by a step function on it, and the properties of the
 * engine are lemmas about those step functions and about runs of events.
 */
module SeekableStreams {
  import opened Common
  import opened Ranges

  /** Where the range request that a tick started stands. */
  datatype Fetch =
    | Idle                             // no request and no body
    | AwaitingResponse(range: ByteRange) // the tick is suspended on getStream
    | Receiving(range: ByteRange)        // the body's listeners are attached
    | Stalled                          // the request failed and the awaited refresh rejected:
                                       // the tick ended without releasing the lock

  /**
   * What an awaited `refreshInformation()` settled to: `Some` of the
   * information `refreshInfoFunction` resolved to, or `None` when it
   * rejected. Nothing in `refreshInformation` catches the rejection, so the
   * handler awaiting it stops there.
   */
  type Refresh = Option<AudioInformation>

  datatype Session = Session(
    information: AudioInformation,
    locked: bool,
    destroyed: bool,
    bytesReceived: nat,
    bytesRead: nat,
    fetch: Fetch,
    pushed: seq<Chunk>,          // chunks pushed into the output, in order
    emitted: seq<Chunk>,         // chunks the output emitted to its `data` listener
    requests: seq<RangeRequest>, // every range request issued, in order
    outputDestroyed: bool,
    timerDestroyed: bool,
    timerResets: nat,
    timerDestroyCalls: nat,
    refreshes: nat)

  /** The state right after the fields are initialised, before the first tick. */
  function Fresh(information: AudioInformation): Session {
    Session(information, false, false, 0, 0, Idle, [], [], [], false, false, 0, 0, 0)
  }

  /** The completion rule: everything was received and the output holds no unread bytes. */
  predicate Completed(s: Session, readableLength: nat) {
    s.bytesReceived >= s.information.fileSize && readableLength == 0
  }

  /** `destroy()`: the timer is destroyed unless it already is, then the output, then the flag. */
  function Destroyed(s: Session): (t: Session)
  {
    var s1 := if s.timerDestroyed then s
              else s.(timerDestroyed := true, timerDestroyCalls := s.timerDestroyCalls + 1);
    s1.(outputDestroyed := true, destroyed := true)
  }

  /**
   * The synchronous part of `tick()`, with the output's readable length at
   * the time of the call. A destroyed session is destroyed again. Through the
   * gate it takes the lock and issues the next range request, and the tick
   * suspends; otherwise it runs the completion check.
   */
  function Ticked(s: Session, readableLength: nat): (t: Session)
  {
    if s.destroyed then Destroyed(s)
    else if ShouldRequest(s.locked, readableLength, s.bytesReceived, s.information.fileSize) then
      var range := NextRange(s.bytesReceived, s.information.fileSize);
      s.(locked := true, fetch := AwaitingResponse(range),
         requests := s.requests + [RangeRequest(s.information.url, range)])
    else if Completed(s, readableLength) then Destroyed(s)
    else s
  }

  /**
   * After a failed request (a rejection or a status of 400 or more): when
   * the refresh resolves, the information is replaced by the refreshed one,
   * the lock is released, the timer is reset and the tick runs again; when it
   * rejects, the tick ends there, nothing is in flight and the lock stays held.
   */
  function RetriedAfterFailure(s: Session, refreshed: Refresh, readableLength: nat): Session {
    match refreshed
    case None => s.(fetch := Stalled)
    case Some(information) =>
      Ticked(s.(information := information, refreshes := s.refreshes + 1, locked := false, fetch := Idle,
                timerResets := s.timerResets + 1), readableLength)
  }

  /**
   * The rest of the suspended tick once the response is in: a status of 400
   * or more is a failure; a response without a body only releases the lock;
   * otherwise the body's listeners are attached and the completion check runs
   * with the output's readable length at that moment.
   */
  function ResponseHandled(s: Session, status: int, hasBody: bool, refreshed: Refresh,
                           readableLength: nat): Session
    requires s.fetch.AwaitingResponse?
  {
    if status >= 400 then RetriedAfterFailure(s, refreshed, readableLength)
    else if !hasBody then s.(locked := false, fetch := Idle)
    else
      var s1 := s.(fetch := Receiving(s.fetch.range));
      if Completed(s1, readableLength) then Destroyed(s1) else s1
  }

  /** A chunk of the body is pushed to the output and counted. */
  function ChunkReceived(s: Session, c: Chunk): Session {
    s.(pushed := s.pushed + [c], bytesReceived := s.bytesReceived + |c|)
  }

  /** The body ended: the lock is released. */
  function BodyEnded(s: Session): Session {
    s.(locked := false, fetch := Idle)
  }

  /**
   * The body failed: the session is destroyed; when the refresh resolves the
   * information is replaced, the timer reset and the tick re-run (on a
   * destroyed session); when it rejects the handler stops after destroying.
   */
  function BodyFailed(s: Session, refreshed: Refresh): Session {
    var s1 := Destroyed(s.(fetch := Idle));
    match refreshed
    case None => s1
    case Some(information) =>
      Ticked(s1.(information := information, refreshes := s1.refreshes + 1, timerResets := s1.timerResets + 1), 0)
  }

  /** The output emitted a chunk to its reader: `bytesRead` grows by its length. */
  function OutputEmitted(s: Session, c: Chunk): Session {
    s.(emitted := s.emitted + [c], bytesRead := s.bytesRead + |c|)
  }

  /** The timer's callback: reset the timer, then tick. */
  function TimerFired(s: Session, readableLength: nat): Session {
    Ticked(s.(timerResets := s.timerResets + 1), readableLength)
  }

  /** The construction: fields initialised, the timer started and one immediate tick on an empty output. */
  function Started(information: AudioInformation): Session {
    Ticked(Fresh(information), 0)
  }

  // ---------------------------------------------------------------------------
  // Runs of events
  // ---------------------------------------------------------------------------

  datatype Event =
    | Timer(readableLength: nat)
    | RequestRejected(refreshed: Refresh, readableLength: nat)
    | ResponseArrived(status: int, hasBody: bool, refreshed: Refresh, readableLength: nat)
    | BodyChunk(chunk: Chunk)
    | BodyEnd
    | BodyError(refreshed: Refresh)
    | OutputData(chunk: Chunk)
    | DestroyCall

  /**
   * When an event can happen: the timer fires until it is destroyed; a
   * response (or rejection) only resumes a tick that issued a request; body
   * events only come from an attached body; a destroyed output emits nothing.
   */
  predicate Enabled(s: Session, e: Event) {
    match e
    case Timer(_) => !s.timerDestroyed
    case RequestRejected(_, _) => s.fetch.AwaitingResponse?
    case ResponseArrived(_, _, _, _) => s.fetch.AwaitingResponse?
    case BodyChunk(_) => s.fetch.Receiving?
    case BodyEnd => s.fetch.Receiving?
    case BodyError(_) => s.fetch.Receiving?
    case OutputData(_) => !s.outputDestroyed
    case DestroyCall => true
  }

  function Step(s: Session, e: Event): Session
    requires Enabled(s, e)
  {
    match e
    case Timer(n) => TimerFired(s, n)
    case RequestRejected(info, n) => RetriedAfterFailure(s, info, n)
    case ResponseArrived(status, hasBody, info, n) => ResponseHandled(s, status, hasBody, info, n)
    case BodyChunk(c) => ChunkReceived(s, c)
    case BodyEnd => BodyEnded(s)
    case BodyError(info) => BodyFailed(s, info)
    case OutputData(c) => OutputEmitted(s, c)
    case DestroyCall => Destroyed(s)
  }

  /** Whether every event of `es` is enabled when it happens. */
  predicate Feasible(s: Session, es: seq<Event>)
    decreases |es|
  {
    es == [] || (Enabled(s, es[0]) && Feasible(Step(s, es[0]), es[1..]))
  }

  function Run(s: Session, es: seq<Event>): Session
    requires Feasible(s, es)
    decreases |es|
  {
    if es == [] then s else Run(Step(s, es[0]), es[1..])
  }

  // ---------------------------------------------------------------------------
  // The session invariant
  // ---------------------------------------------------------------------------

  /**
   * A request or body in flight holds the lock, and on a live session the
   * lock is held only then; the byte counters equal the
   * lengths of the chunks pushed and emitted; the timer was destroyed at most
   * once; a destroyed session has destroyed its timer and its output; every
   * request asked for a non-empty range whose last byte is at most 1 MiB past
   * its first.
   */
  ghost predicate Inv(s: Session) {
    && (s.fetch != Idle ==> s.locked)
    && (s.locked ==> s.fetch != Idle || s.destroyed)
    && s.bytesReceived == TotalLength(s.pushed)
    && s.bytesRead == TotalLength(s.emitted)
    && s.timerDestroyCalls == (if s.timerDestroyed then 1 else 0)
    && (s.destroyed ==> s.timerDestroyed && s.outputDestroyed)
    && (forall i :: 0 <= i < |s.requests| ==>
          s.requests[i].range.first < s.requests[i].range.last &&
          s.requests[i].range.last - s.requests[i].range.first <= RequestLimit)
  }

  lemma StartedInv(information: AudioInformation)
    ensures Inv(Started(information))
  {
  }

  lemma DestroyedInv(s: Session)
    requires Inv(s)
    ensures Inv(Destroyed(s)) && Destroyed(s).requests == s.requests
  {
  }

  lemma TickedInv(s: Session, n: nat)
    requires Inv(s)
    ensures Inv(Ticked(s, n))
  {
    if !s.destroyed && ShouldRequest(s.locked, n, s.bytesReceived, s.information.fileSize) {
      var t := Ticked(s, n);
      var range := NextRange(s.bytesReceived, s.information.fileSize);
      assert t.requests == s.requests + [RangeRequest(s.information.url, range)];
    }
  }

  lemma RetriedInv(s: Session, refreshed: Refresh, n: nat)
    requires Inv(s) && s.fetch.AwaitingResponse?
    ensures Inv(RetriedAfterFailure(s, refreshed, n))
  {
    if refreshed.Some? {
      TickedInv(s.(information := refreshed.value, refreshes := s.refreshes + 1, locked := false, fetch := Idle,
                   timerResets := s.timerResets + 1), n);
    }
  }

  lemma ResponseHandledInv(s: Session, status: int, hasBody: bool, refreshed: Refresh, n: nat)
    requires Inv(s) && s.fetch.AwaitingResponse?
    ensures Inv(ResponseHandled(s, status, hasBody, refreshed, n))
  {
    if status >= 400 {
      RetriedInv(s, refreshed, n);
    } else if hasBody {
      DestroyedInv(s.(fetch := Receiving(s.fetch.range)));
    }
  }

  lemma BodyFailedInv(s: Session, refreshed: Refresh)
    requires Inv(s)
    ensures Inv(BodyFailed(s, refreshed))
  {
    var s1 := Destroyed(s.(fetch := Idle));
    assert Inv(s1);
    if refreshed.Some? {
      TickedInv(s1.(information := refreshed.value, refreshes := s1.refreshes + 1, timerResets := s1.timerResets + 1), 0);
    }
  }

  /** Every enabled event keeps the invariant. */
  lemma StepInv(s: Session, e: Event)
    requires Inv(s) && Enabled(s, e)
    ensures Inv(Step(s, e))
  {
    match e
    case Timer(n) => TickedInv(s.(timerResets := s.timerResets + 1), n);
    case RequestRejected(info, n) => RetriedInv(s, info, n);
    case ResponseArrived(status, hasBody, info, n) => ResponseHandledInv(s, status, hasBody, info, n);
    case BodyChunk(c) => TotalLengthAppend(s.pushed, c);
    case BodyEnd =>
    case BodyError(info) => BodyFailedInv(s, info);
    case OutputData(c) => TotalLengthAppend(s.emitted, c);
    case DestroyCall => DestroyedInv(s);
  }

  /** The invariant holds after every feasible run from a state where it holds. */
  lemma {:induction false} RunInv(s: Session, es: seq<Event>)
    requires Inv(s) && Feasible(s, es)
    ensures Inv(Run(s, es))
    decreases |es|
  {
    if es != [] {
      StepInv(s, es[0]);
      RunInv(Step(s, es[0]), es[1..]);
    }
  }

  /**
   * The lock rule: in every session reachable from the construction, a live
   * session holds the lock exactly while a request or a body is in flight,
   * or after a failed request whose refresh rejected left the tick without
   * releasing it.
   */
  lemma LockHeldWhileInFlightOrStalled(information: AudioInformation, es: seq<Event>)
    requires Feasible(Started(information), es)
    ensures var t := Run(Started(information), es);
      !t.destroyed ==> (t.locked <==> t.fetch.AwaitingResponse? || t.fetch.Receiving? || t.fetch.Stalled?)
  {
    StartedInv(information);
    RunInv(Started(information), es);
  }

  /**
   * A failed request whose refresh rejects ends the tick with the lock held:
   * nothing is in flight, the timer is not reset and nothing is requested.
   */
  lemma RejectedRefreshStalls(s: Session, n: nat)
    requires Inv(s) && s.fetch.AwaitingResponse?
    ensures var t := RetriedAfterFailure(s, None, n);
      && t.locked && t.fetch == Stalled && t.requests == s.requests
      && t.information == s.information && t.timerResets == s.timerResets
  {
  }

  /**
   * A stalled session stays stalled: no event releases the lock, and none
   * requests, receives or refreshes anything.
   */
  lemma StalledStep(s: Session, e: Event)
    requires s.fetch == Stalled && s.locked && Enabled(s, e)
    ensures var t := Step(s, e);
      && t.fetch == Stalled && t.locked && t.requests == s.requests
      && t.bytesReceived == s.bytesReceived && t.information == s.information
      && (!s.destroyed && !e.DestroyCall? && s.bytesReceived < s.information.fileSize ==> !t.destroyed)
  {
  }

  /**
   * Once stalled, no run of events issues a request again or receives a
   * byte; unless it is destroyed from outside, a session stalled short of the
   * end of its resource is never completed.
   */
  lemma {:induction false} StalledRunIssuesNothing(s: Session, es: seq<Event>)
    requires s.fetch == Stalled && s.locked && Feasible(s, es)
    ensures var t := Run(s, es);
      && t.fetch == Stalled && t.locked && t.requests == s.requests
      && t.bytesReceived == s.bytesReceived && t.information == s.information
    ensures (!s.destroyed && s.bytesReceived < s.information.fileSize &&
             forall k :: 0 <= k < |es| ==> !es[k].DestroyCall?) ==> !Run(s, es).destroyed
    decreases |es|
  {
    if es != [] {
      StalledStep(s, es[0]);
      StalledRunIssuesNothing(Step(s, es[0]), es[1..]);
      if !s.destroyed && s.bytesReceived < s.information.fileSize &&
         forall k :: 0 <= k < |es| ==> !es[k].DestroyCall? {
        assert !es[0].DestroyCall?;
        assert forall k :: 0 <= k < |es[1..]| ==> !es[1..][k].DestroyCall? by {
          forall k | 0 <= k < |es[1..]| ensures !es[1..][k].DestroyCall? {
            assert es[1..][k] == es[k + 1];
          }
        }
      }
    }
  }

  /**
   * The stall from the construction: when the first request fails and the
   * refresh rejects, that request stays the only one, and the session is
   * never completed by any run of events that does not destroy it.
   */
  lemma RejectedRefreshStallsForever(information: AudioInformation, es: seq<Event>)
    requires information.fileSize > 0
    requires Feasible(RetriedAfterFailure(Started(information), None, 0), es)
    requires forall k :: 0 <= k < |es| ==> !es[k].DestroyCall?
    ensures var t := Run(RetriedAfterFailure(Started(information), None, 0), es);
      && t.requests == [RangeRequest(information.url, NextRange(0, information.fileSize))]
      && t.bytesReceived == 0 && !t.destroyed && t.locked
  {
    StalledRunIssuesNothing(RetriedAfterFailure(Started(information), None, 0), es);
  }

  // ---------------------------------------------------------------------------
  // Properties of single steps
  // ---------------------------------------------------------------------------

  /**
   * The backpressure gate and the range: a tick issues a request exactly when
   * the session is alive, unlocked, the output holds less than 1 MiB and bytes
   * remain; the request asks for bytes=received-min(received + 1 MiB, size)
   * of the current URL and takes the lock.
   */
  lemma TickGate(s: Session, n: nat)
    ensures var t := Ticked(s, n);
      && (|t.requests| > |s.requests| <==>
            !s.destroyed && !s.locked && n < RequestLimit && s.bytesReceived < s.information.fileSize)
      && (|t.requests| > |s.requests| ==>
            && t.requests == s.requests + [RangeRequest(s.information.url,
                 ByteRange(s.bytesReceived, RangeEnd(s.bytesReceived, s.information.fileSize)))]
            && t.locked && t.fetch == AwaitingResponse(t.requests[|t.requests| - 1].range)
            && s.bytesReceived <= RangeEnd(s.bytesReceived, s.information.fileSize) <= s.information.fileSize)
      && (|t.requests| <= |s.requests| ==> t.requests == s.requests)
  {
  }

  /**
   * The completion rule: a tick on a live session destroys it exactly when it
   * issues no request, everything was received and the output is empty.
   */
  lemma TickCompletion(s: Session, n: nat)
    requires !s.destroyed
    ensures Ticked(s, n).destroyed <==> s.bytesReceived >= s.information.fileSize && n == 0
  {
  }

  /** Single flight: while a request or body is in flight no event but its own outcome issues another. */
  lemma SingleFlight(s: Session, e: Event)
    requires Inv(s) && Enabled(s, e) && s.fetch != Idle
    requires !e.RequestRejected? && !e.ResponseArrived?
    ensures Step(s, e).requests == s.requests
  {
  }

  /**
   * The lock is held until the body ends: a timer tick between the response
   * and the body's first chunk issues nothing, so bytes=0-1048576 is asked
   * for once.
   */
  lemma NoRepeatBeforeBodyEnds(information: AudioInformation)
    requires information.fileSize == 3 * RequestLimit
    ensures var s0 := Started(information);
      var s1 := ResponseHandled(s0, 206, true, Some(information), 0);
      var s2 := TimerFired(s1, 0);
      && s2.requests == [RangeRequest(information.url, ByteRange(0, 1048576))]
      && s2.fetch == Receiving(ByteRange(0, 1048576))
  {
  }

  /**
   * A failed request whose refresh resolves changes the information,
   * releases the lock and resets the timer before the re-tick, and keeps
   * every byte received so far.
   */
  lemma FailureKeepsProgress(s: Session, refreshed: AudioInformation, n: nat)
    ensures var t := RetriedAfterFailure(s, Some(refreshed), n);
      && t.bytesReceived == s.bytesReceived && t.pushed == s.pushed
      && t.information == refreshed && t.timerResets == s.timerResets + 1
      && (!s.destroyed ==>
            (t.locked <==> ShouldRequest(false, n, s.bytesReceived, refreshed.fileSize)))
  {
  }

  /** A response without a body only releases the lock. */
  lemma NoBodyOnlyUnlocks(s: Session, status: int, refreshed: Refresh, n: nat)
    requires s.fetch.AwaitingResponse? && status < 400
    ensures ResponseHandled(s, status, false, refreshed, n) == s.(locked := false, fetch := Idle)
  {
  }

  /** `destroyed` is never cleared, and a destroyed session never issues a request. */
  lemma DestroyedIsFinal(s: Session, e: Event)
    requires Enabled(s, e) && s.destroyed
    ensures Step(s, e).destroyed && Step(s, e).requests == s.requests
  {
  }

  /** Once destroyed, no run of events issues another request. */
  lemma {:induction false} DestroyedRunIssuesNothing(s: Session, es: seq<Event>)
    requires s.destroyed && Feasible(s, es)
    ensures Run(s, es).destroyed && Run(s, es).requests == s.requests
    decreases |es|
  {
    if es != [] {
      DestroyedIsFinal(s, es[0]);
      DestroyedRunIssuesNothing(Step(s, es[0]), es[1..]);
    }
  }

  /**
   * A body error is terminal: the session is destroyed, and nothing after it
   * fetches again, although the handler re-ticks when its refresh resolves.
   */
  lemma BodyErrorIsTerminal(s: Session, refreshed: Refresh, es: seq<Event>)
    requires s.fetch.Receiving? && Feasible(BodyFailed(s, refreshed), es)
    ensures Run(BodyFailed(s, refreshed), es).destroyed
    ensures Run(BodyFailed(s, refreshed), es).requests == s.requests
  {
    DestroyedRunIssuesNothing(BodyFailed(s, refreshed), es);
  }

  /** Destroying twice has no effect beyond destroying once; the timer is destroyed once. */
  lemma DestroyIdempotent(s: Session)
    ensures Destroyed(Destroyed(s)) == Destroyed(s)
    ensures Destroyed(s).timerDestroyCalls <= s.timerDestroyCalls + 1
  {
  }

  // ---------------------------------------------------------------------------
  // A download against a server that serves every range in full
  // ---------------------------------------------------------------------------

  /** The events of one round against a conforming server: tick, a 200 with a body, the body in one chunk, its end. */
  function Round(s: Session, info: AudioInformation): seq<Event>
    requires s.bytesReceived < s.information.fileSize
  {
    var range := NextRange(s.bytesReceived, s.information.fileSize);
    var body: Chunk := seq(ServedLength(range, s.information.fileSize), _ => 0 as Byte);
    [Timer(0), ResponseArrived(200, true, Some(info), 0), BodyChunk(body), BodyEnd]
  }

  /**
   * One round on a live, idle session issues the schedule's next request and
   * receives exactly the bytes the server serves for it.
   */
  lemma RoundFollowsSchedule(s: Session)
    requires Inv(s) && !s.destroyed && !s.timerDestroyed && s.fetch == Idle && !s.locked
    requires s.bytesReceived < s.information.fileSize
    ensures var es := Round(s, s.information);
      && Feasible(s, es)
      && var t := Run(s, es);
      && t.requests == s.requests + [RangeRequest(s.information.url, Schedule(s.bytesReceived, s.information.fileSize)[0])]
      && t.bytesReceived == s.bytesReceived + ServedLength(Schedule(s.bytesReceived, s.information.fileSize)[0], s.information.fileSize)
      && t.information == s.information && t.refreshes == s.refreshes
      && !t.destroyed && !t.timerDestroyed && t.fetch == Idle && !t.locked
      && Inv(t)
  {
    var es := Round(s, s.information);
    var size := s.information.fileSize;
    var range := NextRange(s.bytesReceived, size);
    var s1 := Step(s, es[0]);
    assert s1.fetch == AwaitingResponse(range);
    var s2 := Step(s1, es[1]);
    assert s2.fetch == Receiving(range);
    var s3 := Step(s2, es[2]);
    var s4 := Step(s3, es[3]);
    assert Feasible(s4, es[4..]) && es[4..] == [];
    assert Feasible(s3, es[3..]);
    assert Feasible(s2, es[2..]);
    assert Feasible(s1, es[1..]);
    assert Run(s, es) == s4 by {
      assert Run(s3, es[3..]) == s4;
      assert Run(s2, es[2..]) == s4;
      assert Run(s1, es[1..]) == s4;
    }
    RunInv(s, es);
  }

  /** The events of the whole download from `s` on, round after round. */
  function Download(s: Session): seq<Event>
    requires Inv(s) && !s.destroyed && !s.timerDestroyed && s.fetch == Idle && !s.locked
    decreases s.information.fileSize - s.bytesReceived
  {
    if s.bytesReceived >= s.information.fileSize then []
    else
      RoundFollowsSchedule(s);
      var es := Round(s, s.information);
      es + Download(Run(s, es))
  }

  lemma {:induction false} FeasibleConcat(s: Session, a: seq<Event>, b: seq<Event>)
    requires Feasible(s, a) && Feasible(Run(s, a), b)
    ensures Feasible(s, a + b) && Run(s, a + b) == Run(Run(s, a), b)
    decreases |a|
  {
    if a != [] {
      assert (a + b)[1..] == a[1..] + b;
      FeasibleConcat(Step(s, a[0]), a[1..], b);
    } else {
      assert a + b == b;
    }
  }

  /**
   * Against a server that serves every range in full, a live idle session
   * issues exactly the requests of `Schedule`, in order and all to the same
   * URL, and ends having received the whole resource.
   */
  lemma {:induction false} DownloadFollowsSchedule(s: Session)
    requires Inv(s) && !s.destroyed && !s.timerDestroyed && s.fetch == Idle && !s.locked
    ensures Feasible(s, Download(s))
    ensures var t := Run(s, Download(s));
      && |t.requests| == |s.requests| + |Schedule(s.bytesReceived, s.information.fileSize)|
      && t.requests[..|s.requests|] == s.requests
      && (forall i :: 0 <= i < |t.requests| - |s.requests| ==>
            t.requests[|s.requests| + i] ==
              RangeRequest(s.information.url, Schedule(s.bytesReceived, s.information.fileSize)[i]))
      && t.bytesReceived == (if s.bytesReceived < s.information.fileSize then s.information.fileSize else s.bytesReceived)
      && t.information == s.information && t.refreshes == s.refreshes
      && !t.destroyed && t.fetch == Idle && !t.locked && !t.timerDestroyed
    decreases s.information.fileSize - s.bytesReceived
  {
    var size := s.information.fileSize;
    if s.bytesReceived < size {
      RoundFollowsSchedule(s);
      var es := Round(s, s.information);
      var m := Run(s, es);
      var range := Schedule(s.bytesReceived, size)[0];
      assert m.bytesReceived == s.bytesReceived + ServedLength(range, size);
      assert Schedule(s.bytesReceived, size) == [range] + Schedule(m.bytesReceived, size);
      DownloadFollowsSchedule(m);
      FeasibleConcat(s, es, Download(m));
      assert Download(s) == es + Download(m);
      var t := Run(s, Download(s));
      assert t == Run(m, Download(m));
      forall i | 0 <= i < |t.requests| - |s.requests|
        ensures t.requests[|s.requests| + i] == RangeRequest(s.information.url, Schedule(s.bytesReceived, size)[i])
      {
        if i > 0 {
          assert t.requests[|m.requests| + (i - 1)] ==
            RangeRequest(m.information.url, Schedule(m.bytesReceived, size)[i - 1]);
        } else {
          assert t.requests[..|m.requests|] == m.requests;
          assert t.requests[|s.requests|] == t.requests[..|m.requests|][|s.requests|];
        }
      }
      assert t.requests[..|s.requests|] == s.requests by {
        assert t.requests[..|s.requests|] == t.requests[..|m.requests|][..|s.requests|];
      }
      ServedFinishes(s.bytesReceived, size, range, m.bytesReceived);
    } else {
      assert Download(s) == [];
    }
  }

  lemma ServedFinishes(received: nat, size: nat, range: ByteRange, next: nat)
    requires received < size && range == NextRange(received, size)
    requires next == received + ServedLength(range, size)
    ensures next <= size
  {
  }

  /**
   * The answer to the request the construction issued, against a conforming
   * server: a 200 with a body, the body in one chunk, its end.
   */
  function FirstRound(information: AudioInformation): seq<Event>
    requires information.fileSize > 0
  {
    var body: Chunk := seq(ServedLength(NextRange(0, information.fileSize), information.fileSize), _ => 0 as Byte);
    [ResponseArrived(200, true, Some(information), 0), BodyChunk(body), BodyEnd]
  }

  /**
   * A pending request for the schedule's first range, answered by a
   * conforming server, leaves the session idle and unlocked holding the
   * bytes served, with nothing else changed that the download depends on.
   */
  lemma FirstRoundAnswers(s: Session)
    requires Inv(s) && !s.destroyed && !s.timerDestroyed && s.information.fileSize > 0
    requires s.bytesReceived == 0 && s.fetch == AwaitingResponse(NextRange(0, s.information.fileSize))
    ensures Feasible(s, FirstRound(s.information))
    ensures var t := Run(s, FirstRound(s.information));
      && t.requests == s.requests
      && t.bytesReceived == ServedLength(Schedule(0, s.information.fileSize)[0], s.information.fileSize)
      && t.information == s.information && t.refreshes == s.refreshes
      && !t.destroyed && !t.timerDestroyed && t.fetch == Idle && !t.locked
      && Inv(t)
  {
    var es := FirstRound(s.information);
    var range := NextRange(0, s.information.fileSize);
    var s1 := Step(s, es[0]);
    assert s1.fetch == Receiving(range);
    var s2 := Step(s1, es[1]);
    var s3 := Step(s2, es[2]);
    assert Feasible(s3, es[3..]) && es[3..] == [];
    assert Feasible(s2, es[2..]);
    assert Feasible(s1, es[1..]);
    assert Run(s, es) == s3 by {
      assert Run(s2, es[2..]) == s3;
      assert Run(s1, es[1..]) == s3;
    }
    RunInv(s, es);
  }

  /** The constructed session asked for the schedule's first range; its answer leaves the session idle. */
  lemma FirstRoundFollowsSchedule(information: AudioInformation)
    requires information.fileSize > 0
    ensures var s := Started(information);
      && Feasible(s, FirstRound(information))
      && var t := Run(s, FirstRound(information));
      && t.requests == [RangeRequest(information.url, Schedule(0, information.fileSize)[0])]
      && t.bytesReceived == ServedLength(Schedule(0, information.fileSize)[0], information.fileSize)
      && t.information == information && t.refreshes == 0
      && !t.destroyed && !t.timerDestroyed && t.fetch == Idle && !t.locked
      && Inv(t)
  {
    StartedInv(information);
    FirstRoundAnswers(Started(information));
  }

  /**
   * The events of a whole download from the construction on: the answer to
   * the first request, the remaining rounds, and one last tick on the
   * drained output.
   */
  function ConstructedDownload(information: AudioInformation): seq<Event>
    requires information.fileSize > 0
  {
    FirstRoundFollowsSchedule(information);
    FirstRound(information) + Download(Run(Started(information), FirstRound(information))) + [Timer(0)]
  }

  /**
   * From the construction on, against a server that serves every range in
   * full, the session makes exactly the requests of `Schedule(0, size)`, in
   * order and all to the same URL, receives the whole resource, and the tick
   * after the output is drained completes it.
   */
  lemma ConstructedDownloadFollowsSchedule(information: AudioInformation)
    requires information.fileSize > 0
    ensures Feasible(Started(information), ConstructedDownload(information))
    ensures var t := Run(Started(information), ConstructedDownload(information));
      && |t.requests| == |Schedule(0, information.fileSize)|
      && (forall i :: 0 <= i < |t.requests| ==>
            t.requests[i] == RangeRequest(information.url, Schedule(0, information.fileSize)[i]))
      && t.bytesReceived == information.fileSize
      && t.destroyed
  {
    var size := information.fileSize;
    var s := Started(information);
    FirstRoundFollowsSchedule(information);
    var a := FirstRound(information);
    var m := Run(s, a);
    var range := Schedule(0, size)[0];
    assert Schedule(0, size) == [range] + Schedule(m.bytesReceived, size);
    ServedFinishes(0, size, range, m.bytesReceived);
    DownloadFollowsSchedule(m);
    var b := Download(m);
    var d := Run(m, b);
    FeasibleConcat(s, a, b);
    var fin := [Timer(0)];
    assert Feasible(d, fin) && Run(d, fin) == Step(d, Timer(0));
    FeasibleConcat(s, a + b, fin);
    assert ConstructedDownload(information) == (a + b) + fin;
    var t := Run(d, fin);
    assert t.requests == d.requests && t.bytesReceived == size && t.destroyed;
    forall i | 0 <= i < |t.requests|
      ensures t.requests[i] == RangeRequest(information.url, Schedule(0, size)[i])
    {
      if i > 0 {
        assert d.requests[|m.requests| + (i - 1)] == RangeRequest(m.information.url, Schedule(m.bytesReceived, size)[i - 1]);
      } else {
        assert d.requests[0] == d.requests[..|m.requests|][0];
      }
    }
  }

  /**
   * A constructed session on a 3 MiB resource makes exactly the three
   * requests bytes=0-1048576, 1048577-2097153 and 2097154-3145728, and
   * completes.
   */
  lemma ThreeMiBDownload(information: AudioInformation)
    requires information.fileSize == 3 * RequestLimit
    ensures Feasible(Started(information), ConstructedDownload(information))
    ensures var t := Run(Started(information), ConstructedDownload(information));
      && t.requests == [RangeRequest(information.url, ByteRange(0, 1048576)),
                        RangeRequest(information.url, ByteRange(1048577, 2097153)),
                        RangeRequest(information.url, ByteRange(2097154, 3145728))]
      && t.bytesReceived == information.fileSize && t.destroyed
  {
    ConstructedDownloadFollowsSchedule(information);
    ThreeMiBSchedule();
    var t := Run(Started(information), ConstructedDownload(information));
    var sched := Schedule(0, information.fileSize);
    assert |t.requests| == 3;
    assert t.requests[0] == RangeRequest(information.url, sched[0]);
    assert t.requests[1] == RangeRequest(information.url, sched[1]);
    assert t.requests[2] == RangeRequest(information.url, sched[2]);
  }

  /**
   * The first request fails with a 403 whose refresh resolves to
   * `refreshed`; the re-issued request is then answered in full.
   */
  function RecoveryRound(refreshed: AudioInformation): seq<Event>
    requires refreshed.fileSize > 0
  {
    [ResponseArrived(403, true, Some(refreshed), 0)] + FirstRound(refreshed)
  }

  /**
   * After the 403 the session has refreshed once, re-issued the first range
   * of the refreshed resource to its URL, and, once that is answered, is
   * idle holding the bytes served.
   */
  lemma RecoveryRoundFollowsSchedule(information: AudioInformation, refreshed: AudioInformation)
    requires information.fileSize > 0 && refreshed.fileSize > 0
    ensures Feasible(Started(information), RecoveryRound(refreshed))
    ensures var t := Run(Started(information), RecoveryRound(refreshed));
      && t.requests == [RangeRequest(information.url, NextRange(0, information.fileSize)),
                        RangeRequest(refreshed.url, Schedule(0, refreshed.fileSize)[0])]
      && t.bytesReceived == ServedLength(Schedule(0, refreshed.fileSize)[0], refreshed.fileSize)
      && t.information == refreshed && t.refreshes == 1
      && !t.destroyed && !t.timerDestroyed && t.fetch == Idle && !t.locked
      && Inv(t)
  {
    var s := Started(information);
    var e := ResponseArrived(403, true, Some(refreshed), 0);
    StartedInv(information);
    assert Enabled(s, e);
    var s1 := Step(s, e);
    StepInv(s, e);
    assert s1.fetch == AwaitingResponse(NextRange(0, refreshed.fileSize));
    FirstRoundAnswers(s1);
    assert Feasible(s, [e]) && Run(s, [e]) == s1 by {
      assert [e][1..] == [];
    }
    FeasibleConcat(s, [e], FirstRound(refreshed));
  }

  /**
   * The whole download after a recovered failure: the recovery round, the
   * remaining rounds against the refreshed resource, and one last tick on
   * the drained output.
   */
  function RecoveredDownload(information: AudioInformation, refreshed: AudioInformation): seq<Event>
    requires information.fileSize > 0 && refreshed.fileSize > 0
  {
    RecoveryRoundFollowsSchedule(information, refreshed);
    var es := RecoveryRound(refreshed);
    es + Download(Run(Started(information), es)) + [Timer(0)]
  }

  /**
   * A 403 on the first request whose refresh resolves does not stop the
   * download: after the failed request, the session makes exactly the
   * requests of the refreshed resource's schedule, to its URL, receives the
   * whole resource with one refresh recorded, and completes.
   */
  lemma RecoveredDownloadCompletes(information: AudioInformation, refreshed: AudioInformation)
    requires information.fileSize > 0 && refreshed.fileSize > 0
    ensures Feasible(Started(information), RecoveredDownload(information, refreshed))
    ensures var t := Run(Started(information), RecoveredDownload(information, refreshed));
      var sched := Schedule(0, refreshed.fileSize);
      && |t.requests| == 1 + |sched|
      && t.requests[0] == RangeRequest(information.url, NextRange(0, information.fileSize))
      && (forall i :: 0 <= i < |sched| ==> t.requests[1 + i] == RangeRequest(refreshed.url, sched[i]))
      && t.bytesReceived == refreshed.fileSize && t.refreshes == 1 && t.destroyed
  {
    var size := refreshed.fileSize;
    var s := Started(information);
    RecoveryRoundFollowsSchedule(information, refreshed);
    var a := RecoveryRound(refreshed);
    var m := Run(s, a);
    var range := Schedule(0, size)[0];
    assert Schedule(0, size) == [range] + Schedule(m.bytesReceived, size);
    ServedFinishes(0, size, range, m.bytesReceived);
    DownloadFollowsSchedule(m);
    var b := Download(m);
    var d := Run(m, b);
    FeasibleConcat(s, a, b);
    var fin := [Timer(0)];
    assert Feasible(d, fin) && Run(d, fin) == Step(d, Timer(0));
    FeasibleConcat(s, a + b, fin);
    assert RecoveredDownload(information, refreshed) == (a + b) + fin;
    var t := Run(d, fin);
    assert t.requests == d.requests && t.bytesReceived == size && t.destroyed && t.refreshes == 1;
    var sched := Schedule(0, size);
    assert t.requests[0] == d.requests[..|m.requests|][0];
    forall i | 0 <= i < |sched|
      ensures t.requests[1 + i] == RangeRequest(refreshed.url, sched[i])
    {
      if i > 0 {
        assert d.requests[|m.requests| + (i - 1)] == RangeRequest(m.information.url, Schedule(m.bytesReceived, size)[i - 1]);
      } else {
        assert d.requests[1] == d.requests[..|m.requests|][1];
      }
    }
  }

  /**
   * Nothing bounds `bytesReceived` by the file size: a 1-byte resource whose
   * server answers with a 3-byte chunk ends, invariant intact, with 3 bytes
   * received.
   */
  lemma ReceivedMayExceedFileSize(information: AudioInformation)
    requires information.fileSize == 1
    ensures var s1 := ResponseHandled(Started(information), 206, true, Some(information), 0);
      var s2 := ChunkReceived(s1, [0, 0, 0]);
      && s1.fetch.Receiving?
      && Inv(s2) && s2.bytesReceived == 3 > s2.information.fileSize
  {
    var s := Started(information);
    StartedInv(information);
    var e := ResponseArrived(206, true, Some(information), 0);
    StepInv(s, e);
    var s1 := Step(s, e);
    StepInv(s1, BodyChunk([0, 0, 0]));
  }

  // ---------------------------------------------------------------------------
  // The class
  // ---------------------------------------------------------------------------

  class SeekableStream {
    var information: AudioInformation
    const referenceUrl: Url
    var locked: bool
    var destroyed: bool
    var bytesReceived: nat
    var bytesRead: nat
    var fetch: Fetch
    var pushed: seq<Chunk>
    var outputDestroyed: bool
    var timerDestroyed: bool
    var timerResets: nat
    ghost var emitted: seq<Chunk>
    ghost var requests: seq<RangeRequest>
    ghost var timerDestroyCalls: nat
    ghost var refreshes: nat

    ghost function Snapshot(): Session
      reads this
    {
      Session(information, locked, destroyed, bytesReceived, bytesRead, fetch, pushed, emitted, requests,
              outputDestroyed, timerDestroyed, timerResets, timerDestroyCalls, refreshes)
    }

    ghost predicate Valid()
      reads this
    {
      Inv(Snapshot())
    }

    /** `new SeekableStream(information, referenceUrl)`: start the timer and tick once on the empty output. */
    constructor (information: AudioInformation, referenceUrl: Url)
      ensures Valid() && this.referenceUrl == referenceUrl
      ensures Snapshot() == Started(information)
    {
      this.information := information;
      this.referenceUrl := referenceUrl;
      locked, destroyed := false, false;
      bytesReceived, bytesRead := 0, 0;
      fetch := Idle;
      pushed, emitted, requests := [], [], [];
      outputDestroyed, timerDestroyed := false, false;
      timerResets, timerDestroyCalls, refreshes := 0, 0, 0;
      new;
      Tick(0);
      StartedInv(information);
    }

    method Destroy()
      requires Valid()
      modifies this
      ensures Valid()
      ensures Snapshot() == Destroyed(old(Snapshot()))
    {
      DestroyedInv(Snapshot());
      if !timerDestroyed {
        timerDestroyed := true;
        timerDestroyCalls := timerDestroyCalls + 1;
      }
      outputDestroyed := true;
      destroyed := true;
    }

    /** `tick()` up to its first suspension, with the output's current readable length. */
    method Tick(readableLength: nat)
      requires Valid()
      modifies this
      ensures Valid()
      ensures Snapshot() == Ticked(old(Snapshot()), readableLength)
    {
      TickedInv(Snapshot(), readableLength);
      if destroyed {
        Destroy();
        return;
      }
      var sufficient := readableLength >= RequestLimit;
      if !locked {
        if !sufficient && bytesReceived < information.fileSize {
          locked := true;
          var end := if bytesReceived + RequestLimit <= information.fileSize
                     then bytesReceived + RequestLimit else information.fileSize;
          var range := ByteRange(bytesReceived, end);
          requests := requests + [RangeRequest(information.url, range)];
          fetch := AwaitingResponse(range);
          return;
        }
      }
      if bytesReceived >= information.fileSize && readableLength == 0 {
        Destroy();
      }
    }

    /** The timer's callback. */
    method OnTimer(readableLength: nat)
      requires Valid()
      requires !timerDestroyed
      modifies this
      ensures Valid()
      ensures Snapshot() == TimerFired(old(Snapshot()), readableLength)
    {
      StepInv(Snapshot(), Timer(readableLength));
      timerResets := timerResets + 1;
      Tick(readableLength);
    }

    /** `refreshInformation()`, given what `refreshInfoFunction` resolved to. */
    method RefreshInformation(refreshed: AudioInformation)
      requires Valid()
      modifies this
      ensures Valid()
      ensures Snapshot() == old(Snapshot()).(information := refreshed, refreshes := old(refreshes) + 1)
    {
      information := refreshed;
      refreshes := refreshes + 1;
    }

    /**
     * A failed range request: when the refresh resolves, refresh, unlock,
     * reset the timer and tick again; when it rejects, stop with the lock held.
     */
    method OnRequestError(refreshed: Refresh, readableLength: nat)
      requires Valid()
      requires fetch.AwaitingResponse?
      modifies this
      ensures Valid()
      ensures Snapshot() == RetriedAfterFailure(old(Snapshot()), refreshed, readableLength)
    {
      if refreshed.None? {
        Stall();
      } else {
        Retry(refreshed.value, readableLength);
      }
    }

    /** The awaited refresh rejected: the handler stops before releasing the lock. */
    method Stall()
      requires Valid()
      requires fetch.AwaitingResponse?
      modifies this
      ensures Valid()
      ensures Snapshot() == old(Snapshot()).(fetch := Stalled)
    {
      RetriedInv(Snapshot(), None, 0);
      fetch := Stalled;
    }

    /** The refresh resolved to `refreshed`: take it, unlock, reset the timer and tick. */
    method Retry(refreshed: AudioInformation, readableLength: nat)
      requires Valid()
      requires fetch.AwaitingResponse?
      modifies this
      ensures Valid()
      ensures Snapshot() == RetriedAfterFailure(old(Snapshot()), Some(refreshed), readableLength)
    {
      ghost var s0 := Snapshot();
      RefreshInformation(refreshed);
      Release();
      assert Snapshot() == s0.(information := refreshed, refreshes := s0.refreshes + 1, locked := false,
                               fetch := Idle, timerResets := s0.timerResets + 1);
      Tick(readableLength);
    }

    /** After a refresh: release the lock, forget the failed request and reset the timer. */
    method Release()
      requires Valid()
      requires fetch.AwaitingResponse?
      modifies this
      ensures Valid()
      ensures Snapshot() == old(Snapshot()).(locked := false, fetch := Idle, timerResets := old(timerResets) + 1)
    {
      locked := false;
      fetch := Idle;
      timerResets := timerResets + 1;
    }

    /** A response without a body: release the lock. */
    method OnNoBody()
      requires Valid()
      requires fetch.AwaitingResponse?
      modifies this
      ensures Valid()
      ensures Snapshot() == old(Snapshot()).(locked := false, fetch := Idle)
    {
      locked := false;
      fetch := Idle;
    }

    /** The range request's response arrived with `status`. */
    method OnStatus(status: int, hasBody: bool, refreshed: Refresh, readableLength: nat)
      requires Valid()
      requires fetch.AwaitingResponse?
      modifies this
      ensures Valid()
      ensures Snapshot() == ResponseHandled(old(Snapshot()), status, hasBody, refreshed, readableLength)
    {
      ResponseHandledInv(Snapshot(), status, hasBody, refreshed, readableLength);
      if status >= 400 {
        OnRequestError(refreshed, readableLength);
        return;
      }
      if !hasBody {
        OnNoBody();
        return;
      }
      fetch := Receiving(fetch.range);
      if bytesReceived >= information.fileSize && readableLength == 0 {
        Destroy();
      }
    }

    /** The body's `data` listener. */
    method OnChunk(chunk: Chunk)
      requires Valid()
      requires fetch.Receiving?
      modifies this
      ensures Valid()
      ensures Snapshot() == ChunkReceived(old(Snapshot()), chunk)
    {
      StepInv(Snapshot(), BodyChunk(chunk));
      pushed := pushed + [chunk];
      bytesReceived := bytesReceived + |chunk|;
    }

    /** The body's `end` listener. */
    method OnEnd()
      requires Valid()
      requires fetch.Receiving?
      modifies this
      ensures Valid()
      ensures Snapshot() == BodyEnded(old(Snapshot()))
    {
      StepInv(Snapshot(), BodyEnd);
      locked := false;
      fetch := Idle;
    }

    /** The body's `error` listener. */
    method OnBodyError(refreshed: Refresh)
      requires Valid()
      requires fetch.Receiving?
      modifies this
      ensures Valid()
      ensures Snapshot() == BodyFailed(old(Snapshot()), refreshed)
    {
      ghost var s0 := Snapshot();
      BodyFailedInv(s0, refreshed);
      Destroy();
      fetch := Idle;
      assert Snapshot() == Destroyed(s0.(fetch := Idle));
      if refreshed.None? {
        return;
      }
      RefreshInformation(refreshed.value);
      timerResets := timerResets + 1;
      Tick(0);
    }

    /** The output's `data` listener. */
    method OnOutputData(chunk: Chunk)
      requires Valid()
      requires !outputDestroyed
      modifies this
      ensures Valid()
      ensures Snapshot() == OutputEmitted(old(Snapshot()), chunk)
    {
      StepInv(Snapshot(), OutputData(chunk));
      bytesRead := bytesRead + |chunk|;
      emitted := emitted + [chunk];
    }
  }
}
