/**
 * The older fetch engine, class `Stream` of src/utils/stream.ts.
 *
 * It differs from `SeekableStream` in four ways that matter here: completion
 * is the monotonic flag `fetchCompleted`, set by a check that runs when a body
 * ends and is delayed while the session is locked; the lock is released as
 * soon as a body's listeners are attached, not when the body ends; the tick
 * samples the output's readable length once, before it suspends, and uses
 * that sample for the completion test after it resumes; and `destroy` only
 * destroys the current response body, while the destination's `close` event
 * destroys the timer.
 *
 * As in SeekableStreams, each callback is a method, awaited values are
 * parameters, and the class is specified by step functions on `Session`.
 */
module LegacyStreams {
  import opened Common
  import opened Ranges

  /** Where one response body stands. */
  datatype BodyState =
    | Streaming   // listeners attached, chunks may arrive
    | EndPending  // the body ended; its end check is waiting for the lock to be released
    | Ended       // the end check has run
    | Failed      // the body emitted `error`
    | Closed      // destroyed by `destroy()` while it was streaming

  /** A response body with the range end its listeners captured. */
  datatype Body = Body(end: nat, state: BodyState)

  /** A tick suspended on `fetchStream`, with the range end and the buffer length it sampled. */
  datatype Pending = Pending(end: nat, sampled: nat)

  datatype Session = Session(
    url: Url,
    contentLength: nat,
    locked: bool,
    destroyed: bool,
    fetchCompleted: bool,
    bytesReceived: nat,
    pushed: seq<Chunk>,          // chunks pushed into the output
    outputEnded: bool,           // `stream.push(null)` was called
    outputDestroyed: bool,
    finishedEmitted: nat,        // how many times "finished" was emitted
    timerDestroyed: bool,
    timerPaused: bool,
    timerResets: nat,
    awaiting: Option<Pending>,
    bodies: seq<Body>,           // every body whose listeners were attached, in order
    input: Option<nat>,          // `inputReadable`, as an index into `bodies`
    requests: seq<RangeRequest>, // every range request issued, in order
    stalled: bool)               // a failed request's refresh rejected: that tick ended holding the lock

  /**
   * What an awaited `refreshStreamUrl()` settled to: `Some` of the URL
   * `refreshStreamUrlFunction` resolved to, or `None` when it rejected.
   * Nothing in `refreshStreamUrl` catches the rejection, so the handler
   * awaiting it stops there.
   */
  type Refresh = Option<Url>

  function Fresh(url: Url, contentLength: nat): Session {
    Session(url, contentLength, false, false, false, 0, [], false, false, 0, false, false, 0, None, [], None, [], false)
  }

  /** `destroy()`: destroy the current body if it is still streaming, and set the flag. */
  function Destroyed(s: Session): Session {
    var bodies :=
      if s.input.Some? && s.input.value < |s.bodies| && s.bodies[s.input.value].state == Streaming
      then s.bodies[s.input.value := s.bodies[s.input.value].(state := Closed)]
      else s.bodies;
    s.(bodies := bodies, destroyed := true)
  }

  /** The completion test of the tick, on the buffer length sampled at its start. */
  function FinishIfDrained(s: Session, sampled: nat): Session {
    if s.fetchCompleted && sampled == 0 then Destroyed(s.(finishedEmitted := s.finishedEmitted + 1)) else s
  }

  /**
   * `tick()` up to its suspension on `fetchStream`, with the output's
   * readable length sampled at its start and whether the output is destroyed.
   */
  function Ticked(s: Session, readableLength: nat): Session {
    if s.destroyed then s.(timerDestroyed := true)
    else if s.outputDestroyed then Destroyed(s.(timerDestroyed := true))
    else if !s.locked && !s.fetchCompleted && !BufferSufficient(readableLength) then
      var end := RangeEnd(s.bytesReceived, s.contentLength);
      s.(locked := true, awaiting := Some(Pending(end, readableLength)),
         requests := s.requests + [RangeRequest(s.url, ByteRange(s.bytesReceived, end))])
    else FinishIfDrained(s, readableLength)
  }

  /**
   * A rejected request or a status of 400 or more: when the refresh resolves,
   * a new URL, the lock released, the timer reset, a new tick; when it
   * rejects, the tick ends there with the lock still held.
   */
  function RetriedAfterFailure(s: Session, newUrl: Refresh, readableLength: nat): Session {
    match newUrl
    case None => s.(awaiting := None, stalled := true)
    case Some(u) =>
      Ticked(s.(url := u, locked := false, awaiting := None, timerResets := s.timerResets + 1), readableLength)
  }

  /**
   * The tick resumed with the response. A body gets its listeners, then the
   * lock is released at once and the completion test runs on the length
   * sampled before the request.
   */
  function ResponseHandled(s: Session, status: int, hasBody: bool, newUrl: Refresh, readableLength: nat): Session
    requires s.awaiting.Some?
  {
    var p := s.awaiting.value;
    if status >= 400 then RetriedAfterFailure(s, newUrl, readableLength)
    else if !hasBody then s.(input := None, locked := false, awaiting := None)
    else
      var s1 := s.(bodies := s.bodies + [Body(p.end, Streaming)], input := Some(|s.bodies|),
                   locked := false, awaiting := None);
      FinishIfDrained(s1, p.sampled)
  }

  predicate IsStreaming(s: Session, i: nat) {
    i < |s.bodies| && s.bodies[i].state == Streaming
  }

  /** A chunk of body `i` is pushed to the output and counted. */
  function ChunkReceived(s: Session, i: nat, c: Chunk): Session {
    s.(pushed := s.pushed + [c], bytesReceived := s.bytesReceived + |c|)
  }

  /**
   * The end check of body `i`: while the session is locked it waits (the
   * source polls again a second later); otherwise, when the body's range
   * reached the last byte, it locks the session for good, ends the output and
   * marks the fetch completed.
   */
  function EndChecked(s: Session, i: nat): Session
    requires i < |s.bodies| && s.bodies[i].state == EndPending
  {
    if s.locked then s
    else
      var done := s.bodies[i := s.bodies[i].(state := Ended)];
      if s.bodies[i].end as int >= s.contentLength as int - 1 then
        s.(bodies := done, locked := true, outputEnded := true, fetchCompleted := true)
      else s.(bodies := done)
  }

  /** Body `i` ended: its end check runs once at once. */
  function BodyEnded(s: Session, i: nat): Session
    requires IsStreaming(s, i)
  {
    EndChecked(s.(bodies := s.bodies[i := s.bodies[i].(state := EndPending)]), i)
  }

  /**
   * Body `i` failed: destroy; when the refresh resolves, take the new URL,
   * reset the timer and tick (on a destroyed session); when it rejects, stop.
   */
  function BodyFailed(s: Session, i: nat, newUrl: Refresh, readableLength: nat): Session
    requires IsStreaming(s, i)
  {
    var s1 := Destroyed(s.(bodies := s.bodies[i := s.bodies[i].(state := Failed)]));
    match newUrl
    case None => s1
    case Some(u) => Ticked(s1.(url := u, timerResets := s1.timerResets + 1), readableLength)
  }

  /** The destination closed: destroy the timer and the session. */
  function OutputClosed(s: Session): Session {
    Destroyed(s.(outputDestroyed := true, timerDestroyed := true))
  }

  function TimerFired(s: Session, readableLength: nat): Session {
    Ticked(s.(timerResets := s.timerResets + 1), readableLength)
  }

  /** Construction: the timer is started and the first tick sees an empty output. */
  function Started(url: Url, contentLength: nat): Session {
    Ticked(Fresh(url, contentLength), 0)
  }

  // ---------------------------------------------------------------------------
  // Runs of events
  // ---------------------------------------------------------------------------

  datatype Event =
    | Timer(readableLength: nat)
    | RequestRejected(newUrl: Refresh, readableLength: nat)
    | ResponseArrived(status: int, hasBody: bool, newUrl: Refresh, readableLength: nat)
    | BodyChunk(body: nat, chunk: Chunk)
    | BodyEnd(body: nat)
    | EndRecheck(body: nat)
    | BodyError(body: nat, newUrl: Refresh, readableLength: nat)
    | OutputClose
    | Pause
    | Resume

  predicate Enabled(s: Session, e: Event) {
    match e
    case Timer(_) => !s.timerDestroyed && !s.timerPaused
    case RequestRejected(_, _) => s.awaiting.Some?
    case ResponseArrived(_, _, _, _) => s.awaiting.Some?
    case BodyChunk(i, _) => IsStreaming(s, i)
    case BodyEnd(i) => IsStreaming(s, i)
    case EndRecheck(i) => i < |s.bodies| && s.bodies[i].state == EndPending
    case BodyError(i, _, _) => IsStreaming(s, i)
    case OutputClose => !s.outputDestroyed
    case Pause => true
    case Resume => true
  }

  function Step(s: Session, e: Event): Session
    requires Enabled(s, e)
  {
    match e
    case Timer(n) => TimerFired(s, n)
    case RequestRejected(u, n) => RetriedAfterFailure(s, u, n)
    case ResponseArrived(status, hasBody, u, n) => ResponseHandled(s, status, hasBody, u, n)
    case BodyChunk(i, c) => ChunkReceived(s, i, c)
    case BodyEnd(i) => BodyEnded(s, i)
    case EndRecheck(i) => EndChecked(s, i)
    case BodyError(i, u, n) => BodyFailed(s, i, u, n)
    case OutputClose => OutputClosed(s)
    case Pause => s.(timerPaused := true)
    case Resume => s.(timerPaused := false)
  }

  predicate Feasible(s: Session, es: seq<Event>)
    decreases |es|
  {
    es == [] || (Enabled(s, es[0]) && Feasible(Step(s, es[0]), es[1..]))
  }

  function Run(s: Session, es: seq<Event>): Session
    requires Feasible(s, es)
    decreases |es|
  {
    if es == [] then s else Run(Step(s, es[0]), es[1..])
  }

  // ---------------------------------------------------------------------------
  // The session invariant
  // ---------------------------------------------------------------------------

  /**
   * The lock is held exactly while a tick is suspended on its request, after
   * the fetch completed, or after a refresh rejected, never merely because a
   * body streams; a stalled session has no tick suspended and has not
   * completed; a completed fetch holds the lock for good, has ended the
   * output and has no tick suspended; the output is ended exactly when the
   * fetch completed; `bytesReceived` is the length of everything pushed;
   * `inputReadable` is a body that was attached.
   */
  ghost predicate Inv(s: Session) {
    && (s.locked <==> s.awaiting.Some? || s.fetchCompleted || s.stalled)
    && (s.stalled ==> s.awaiting.None? && !s.fetchCompleted)
    && (s.fetchCompleted ==> s.locked && s.awaiting.None?)
    && (s.outputEnded <==> s.fetchCompleted)
    && s.bytesReceived == TotalLength(s.pushed)
    && (s.input.Some? ==> s.input.value < |s.bodies|)
  }

  lemma StartedInv(url: Url, contentLength: nat)
    ensures Inv(Started(url, contentLength))
  {
  }

  lemma TickedInv(s: Session, n: nat)
    requires Inv(s)
    ensures Inv(Ticked(s, n))
  {
  }

  lemma ResponseHandledInv(s: Session, status: int, hasBody: bool, u: Refresh, n: nat)
    requires Inv(s) && s.awaiting.Some?
    ensures Inv(ResponseHandled(s, status, hasBody, u, n))
  {
    if status >= 400 {
      RetriedInv(s, u, n);
    }
  }

  lemma BodyFailedInv(s: Session, i: nat, u: Refresh, n: nat)
    requires Inv(s) && IsStreaming(s, i)
    ensures Inv(BodyFailed(s, i, u, n))
  {
    var s1 := Destroyed(s.(bodies := s.bodies[i := s.bodies[i].(state := Failed)]));
    if u.Some? {
      TickedInv(s1.(url := u.value, timerResets := s1.timerResets + 1), n);
    }
  }

  lemma DestroyedInv(s: Session)
    requires Inv(s)
    ensures Inv(Destroyed(s))
  {
  }

  lemma BodyEndedInv(s: Session, i: nat)
    requires Inv(s) && IsStreaming(s, i)
    ensures Inv(BodyEnded(s, i))
  {
  }

  lemma EndCheckedInv(s: Session, i: nat)
    requires Inv(s) && i < |s.bodies| && s.bodies[i].state == EndPending
    ensures Inv(EndChecked(s, i))
  {
  }

  lemma RetriedInv(s: Session, u: Refresh, n: nat)
    requires Inv(s) && s.awaiting.Some?
    ensures Inv(RetriedAfterFailure(s, u, n))
  {
    if u.Some? {
      TickedInv(s.(url := u.value, locked := false, awaiting := None, timerResets := s.timerResets + 1), n);
    }
  }

  lemma ChunkReceivedInv(s: Session, i: nat, c: Chunk)
    requires Inv(s)
    ensures Inv(ChunkReceived(s, i, c))
  {
    TotalLengthAppend(s.pushed, c);
  }

  lemma StepInv(s: Session, e: Event)
    requires Inv(s) && Enabled(s, e)
    ensures Inv(Step(s, e))
  {
    match e
    case Timer(n) => TickedInv(s.(timerResets := s.timerResets + 1), n);
    case RequestRejected(u, n) => RetriedInv(s, u, n);
    case ResponseArrived(status, hasBody, u, n) => ResponseHandledInv(s, status, hasBody, u, n);
    case BodyChunk(i, c) => ChunkReceivedInv(s, i, c);
    case BodyEnd(i) => BodyEndedInv(s, i);
    case EndRecheck(i) => EndCheckedInv(s, i);
    case BodyError(i, u, n) => BodyFailedInv(s, i, u, n);
    case OutputClose => DestroyedInv(s.(outputDestroyed := true, timerDestroyed := true));
    case Pause => assert Inv(s.(timerPaused := true));
    case Resume => assert Inv(s.(timerPaused := false));
  }

  lemma {:induction false} RunInv(s: Session, es: seq<Event>)
    requires Inv(s) && Feasible(s, es)
    ensures Inv(Run(s, es))
    decreases |es|
  {
    if es != [] {
      StepInv(s, es[0]);
      RunInv(Step(s, es[0]), es[1..]);
    }
  }

  /**
   * The lock rule: in every session reachable from the construction the lock
   * is held exactly while a tick awaits its response headers, after the fetch
   * completed, or after a failed request whose refresh rejected. It never
   * covers a streaming body, so nothing stops the next tick from requesting
   * while bodies stream.
   */
  lemma LockHeldForHeadersCompletionOrStall(url: Url, contentLength: nat, es: seq<Event>)
    requires Feasible(Started(url, contentLength), es)
    ensures var t := Run(Started(url, contentLength), es);
      t.locked <==> t.awaiting.Some? || t.fetchCompleted || t.stalled
  {
    StartedInv(url, contentLength);
    RunInv(Started(url, contentLength), es);
  }

  /**
   * A failed request whose refresh rejects ends the tick with the lock held
   * and no tick awaiting: the URL is kept, the timer is not reset and nothing
   * is requested.
   */
  lemma RejectedRefreshStalls(s: Session, n: nat)
    requires Inv(s) && s.awaiting.Some?
    ensures var t := RetriedAfterFailure(s, None, n);
      && t.locked && t.stalled && t.awaiting.None? && !t.fetchCompleted
      && t.requests == s.requests && t.url == s.url && t.timerResets == s.timerResets
  {
  }

  /** The part of a stalled session that no event changes. */
  predicate StallHolds(s: Session) {
    s.stalled && s.locked && s.awaiting.None? && !s.fetchCompleted && !s.outputEnded
  }

  /**
   * A stalled session stays stalled: ticks pass the gate no more, end checks
   * keep waiting on the lock, and neither "finished" nor the end of the
   * output is ever produced.
   */
  lemma StalledStep(s: Session, e: Event)
    requires StallHolds(s) && Enabled(s, e)
    ensures var t := Step(s, e);
      StallHolds(t) && t.requests == s.requests && t.finishedEmitted == s.finishedEmitted
  {
  }

  /** Once stalled, no run of events requests again, completes the fetch, ends the output or emits "finished". */
  lemma {:induction false} StalledRunIssuesNothing(s: Session, es: seq<Event>)
    requires StallHolds(s) && Feasible(s, es)
    ensures var t := Run(s, es);
      StallHolds(t) && t.requests == s.requests && t.finishedEmitted == s.finishedEmitted
    decreases |es|
  {
    if es != [] {
      StalledStep(s, es[0]);
      StalledRunIssuesNothing(Step(s, es[0]), es[1..]);
    }
  }

  /**
   * The stall from the construction: when the first request fails and the
   * refresh rejects, that request stays the only one and the output is never
   * ended, whatever happens next.
   */
  lemma RejectedRefreshStallsForever(url: Url, contentLength: nat, es: seq<Event>)
    requires Feasible(RetriedAfterFailure(Started(url, contentLength), None, 0), es)
    ensures var t := Run(RetriedAfterFailure(Started(url, contentLength), None, 0), es);
      && t.requests == [RangeRequest(url, ByteRange(0, RangeEnd(0, contentLength)))]
      && t.locked && !t.fetchCompleted && !t.outputEnded && t.finishedEmitted == 0
  {
    StalledRunIssuesNothing(RetriedAfterFailure(Started(url, contentLength), None, 0), es);
  }

  // ---------------------------------------------------------------------------
  // Properties
  // ---------------------------------------------------------------------------

  /**
   * The gate: on a live session whose destination is not destroyed, a tick
   * issues a request exactly when it is unlocked, the fetch is not completed
   * and the sampled buffer is below 1 MiB; the request asks for
   * bytes=received-min(received + 1 MiB, contentLength) of the current URL.
   */
  lemma TickGate(s: Session, n: nat)
    requires !s.destroyed && !s.outputDestroyed
    ensures var t := Ticked(s, n);
      && (|t.requests| > |s.requests| <==> !s.locked && !s.fetchCompleted && n < RequestLimit)
      && (|t.requests| > |s.requests| ==>
            && t.requests == s.requests + [RangeRequest(s.url, ByteRange(s.bytesReceived, RangeEnd(s.bytesReceived, s.contentLength)))]
            && t.locked && t.awaiting == Some(Pending(RangeEnd(s.bytesReceived, s.contentLength), n)))
      && (|t.requests| <= |s.requests| ==> t.requests == s.requests)
  {
  }

  /** A tick on a destroyed session only destroys the timer. */
  lemma DestroyedTickOnlyStopsTimer(s: Session, n: nat)
    requires s.destroyed
    ensures Ticked(s, n) == s.(timerDestroyed := true)
  {
  }

  /**
   * A tick on a live session whose destination is destroyed destroys the
   * timer and the session and issues nothing.
   */
  lemma DestinationGoneDestroys(s: Session, n: nat)
    requires !s.destroyed && s.outputDestroyed
    ensures var t := Ticked(s, n);
      t.destroyed && t.timerDestroyed && t.requests == s.requests && t.finishedEmitted == s.finishedEmitted
  {
  }

  /** Closing the destination destroys the timer and the session, whatever the state. */
  lemma CloseDestroysAll(s: Session)
    ensures var t := OutputClosed(s);
      t.destroyed && t.timerDestroyed && t.outputDestroyed && t.requests == s.requests
      && t.bytesReceived == s.bytesReceived && t.fetchCompleted == s.fetchCompleted
  {
  }

  /**
   * "finished" is emitted, and the session destroyed, by a tick that issues no
   * request exactly when the fetch completed and the buffer length sampled at
   * the start of the tick was 0.
   */
  lemma FinishedRule(s: Session, n: nat)
    requires !s.destroyed && !s.outputDestroyed && (s.locked || s.fetchCompleted || BufferSufficient(n))
    ensures var t := Ticked(s, n);
      && (t.finishedEmitted == s.finishedEmitted + 1 <==> s.fetchCompleted && n == 0)
      && (t.finishedEmitted == s.finishedEmitted + 1 ==> t.destroyed)
      && (t.finishedEmitted != s.finishedEmitted + 1 ==> t == s)
  {
  }

  /**
   * A resumed tick never emits "finished": while it was suspended the session
   * was locked, so no end check could complete the fetch.
   */
  lemma ResumedTickNeverFinishes(s: Session, hasBody: bool, u: Refresh, n: nat)
    requires Inv(s) && s.awaiting.Some?
    ensures ResponseHandled(s, 200, hasBody, u, n).finishedEmitted == s.finishedEmitted
    ensures !ResponseHandled(s, 200, hasBody, u, n).locked
  {
  }

  /**
   * A failed request whose refresh resolves replaces only the URL before the
   * re-tick: the bytes received, the output and the completion flag are
   * kept, and the re-tick asks the new URL.
   */
  lemma FailureReplacesOnlyUrl(s: Session, u: Url, n: nat)
    requires Inv(s) && s.awaiting.Some? && !s.destroyed && !s.outputDestroyed
    ensures var t := RetriedAfterFailure(s, Some(u), n);
      && t.bytesReceived == s.bytesReceived && t.pushed == s.pushed && t.url == u
      && t.fetchCompleted == s.fetchCompleted && t.contentLength == s.contentLength
      && t.timerResets == s.timerResets + 1
      && (t.locked <==> !BufferSufficient(n))
      && (t.locked ==> t.requests == s.requests + [RangeRequest(u, ByteRange(s.bytesReceived, RangeEnd(s.bytesReceived, s.contentLength)))])
  {
  }

  /**
   * The end check waits while the session is locked; once unlocked it
   * completes the fetch exactly when the body's range reached the last byte.
   */
  lemma EndCheckRule(s: Session, i: nat)
    requires i < |s.bodies| && s.bodies[i].state == EndPending
    ensures s.locked ==> EndChecked(s, i) == s
    ensures !s.locked ==>
      && EndChecked(s, i).bodies[i].state == Ended
      && (EndChecked(s, i).fetchCompleted <==> s.fetchCompleted || s.bodies[i].end as int >= s.contentLength as int - 1)
      && (EndChecked(s, i).fetchCompleted && !s.fetchCompleted ==> EndChecked(s, i).locked && EndChecked(s, i).outputEnded)
  {
  }

  /** A completed session, being locked, never passes the gate. */
  lemma TickedKeepsCompletion(s: Session, n: nat)
    requires s.fetchCompleted && s.locked && s.outputEnded
    ensures var t := Ticked(s, n);
      t.fetchCompleted && t.locked && t.outputEnded && t.requests == s.requests
  {
  }

  /** Completion is permanent: every event keeps the flag and the lock, and issues no request. */
  lemma CompletedIsPermanent(s: Session, e: Event)
    requires Inv(s) && s.fetchCompleted && Enabled(s, e)
    ensures var t := Step(s, e);
      t.fetchCompleted && t.locked && t.outputEnded && t.requests == s.requests
  {
    match e
    case Timer(n) => TickedKeepsCompletion(s.(timerResets := s.timerResets + 1), n);
    case BodyError(i, u, n) =>
      var s1 := Destroyed(s.(bodies := s.bodies[i := s.bodies[i].(state := Failed)]));
      if u.Some? {
        TickedKeepsCompletion(s1.(url := u.value, timerResets := s1.timerResets + 1), n);
      }
    case _ =>
  }

  /** Once the fetch completed, no run of events issues another request or clears the flags. */
  lemma {:induction false} CompletedRunIssuesNothing(s: Session, es: seq<Event>)
    requires Inv(s) && s.fetchCompleted && Feasible(s, es)
    ensures Run(s, es).fetchCompleted && Run(s, es).locked && Run(s, es).requests == s.requests
    decreases |es|
  {
    if es != [] {
      CompletedIsPermanent(s, es[0]);
      StepInv(s, es[0]);
      CompletedRunIssuesNothing(Step(s, es[0]), es[1..]);
    }
  }

  /**
   * As written, the lock is released before the body has arrived: a timer tick
   * between the response and the body's first chunk requests the same range
   * again, and two bodies for bytes=0-1048576 then stream into the output.
   */
  lemma DuplicateRangeRequest(url: Url)
    ensures var s0 := Started(url, 3 * RequestLimit);
      var s1 := ResponseHandled(s0, 206, true, Some(url), 0);
      var s2 := TimerFired(s1, 0);
      var s3 := ResponseHandled(s2, 206, true, Some(url), 0);
      && s2.requests == [RangeRequest(url, ByteRange(0, 1048576)), RangeRequest(url, ByteRange(0, 1048576))]
      && s3.bodies == [Body(1048576, Streaming), Body(1048576, Streaming)]
  {
  }

  // ---------------------------------------------------------------------------
  // The class
  // ---------------------------------------------------------------------------

  class Stream {
    var url: Url
    const referenceUrl: Url
    const contentLength: nat
    var locked: bool
    var destroyed: bool
    var fetchCompleted: bool
    var bytesReceived: nat
    var pushed: seq<Chunk>
    var outputEnded: bool
    var outputDestroyed: bool
    var finishedEmitted: nat
    var timerDestroyed: bool
    var timerPaused: bool
    var timerResets: nat
    var awaiting: Option<Pending>
    var bodies: seq<Body>
    var input: Option<nat>
    ghost var requests: seq<RangeRequest>
    ghost var stalled: bool

    ghost function Snapshot(): Session
      reads this
    {
      Session(url, contentLength, locked, destroyed, fetchCompleted, bytesReceived, pushed, outputEnded,
              outputDestroyed, finishedEmitted, timerDestroyed, timerPaused, timerResets, awaiting, bodies,
              input, requests, stalled)
    }

    ghost predicate Valid()
      reads this
    {
      Inv(Snapshot())
    }

    /** `new Stream(streamUrl, referenceUrl, contentLength, ...)`: start the timer and tick on the empty output. */
    constructor (streamUrl: Url, referenceUrl: Url, contentLength: nat)
      ensures Valid() && this.referenceUrl == referenceUrl
      ensures Snapshot() == Started(streamUrl, contentLength)
    {
      url := streamUrl;
      this.referenceUrl := referenceUrl;
      this.contentLength := contentLength;
      locked, destroyed, fetchCompleted := false, false, false;
      bytesReceived, pushed := 0, [];
      outputEnded, outputDestroyed, finishedEmitted := false, false, 0;
      timerDestroyed, timerPaused, timerResets := false, false, 0;
      awaiting, bodies, input, requests, stalled := None, [], None, [], false;
      new;
      Tick(0);
      StartedInv(streamUrl, contentLength);
    }

    method Destroy()
      requires Valid()
      modifies this
      ensures Valid()
      ensures Snapshot() == Destroyed(old(Snapshot()))
    {
      DestroyedInv(Snapshot());
      if input.Some? && input.value < |bodies| && bodies[input.value].state == Streaming {
        bodies := bodies[input.value := bodies[input.value].(state := Closed)];
      }
      destroyed := true;
    }

    /** The completion test at the end of the tick. */
    method CheckFinished(sampled: nat)
      requires Valid()
      modifies this
      ensures Valid()
      ensures Snapshot() == FinishIfDrained(old(Snapshot()), sampled)
    {
      if fetchCompleted && sampled == 0 {
        finishedEmitted := finishedEmitted + 1;
        Destroy();
      }
    }

    /** `tick()` up to its suspension, with the output's readable length. */
    method Tick(readableLength: nat)
      requires Valid()
      modifies this
      ensures Valid()
      ensures Snapshot() == Ticked(old(Snapshot()), readableLength)
    {
      TickedInv(Snapshot(), readableLength);
      if destroyed {
        timerDestroyed := true;
        return;
      }
      if outputDestroyed {
        timerDestroyed := true;
        Destroy();
        return;
      }
      var remaining := readableLength;
      var sufficient := remaining >= RequestLimit;
      if !locked && !fetchCompleted {
        if !sufficient {
          locked := true;
          var end := if bytesReceived + RequestLimit <= contentLength then bytesReceived + RequestLimit else contentLength;
          requests := requests + [RangeRequest(url, ByteRange(bytesReceived, end))];
          awaiting := Some(Pending(end, remaining));
          return;
        }
      }
      CheckFinished(remaining);
    }

    method OnTimer(readableLength: nat)
      requires Valid()
      requires !timerDestroyed && !timerPaused
      modifies this
      ensures Valid()
      ensures Snapshot() == TimerFired(old(Snapshot()), readableLength)
    {
      StepInv(Snapshot(), Timer(readableLength));
      timerResets := timerResets + 1;
      Tick(readableLength);
    }

    /** `refreshStreamUrl()`, given the URL `refreshStreamUrlFunction` resolved to. */
    method RefreshStreamUrl(newUrl: Url)
      requires Valid()
      modifies this
      ensures Valid()
      ensures Snapshot() == old(Snapshot()).(url := newUrl)
    {
      url := newUrl;
    }

    /**
     * A failed range request: when the refresh resolves, take the new URL,
     * unlock, reset the timer and tick again; when it rejects, stop with the
     * lock held.
     */
    method OnRequestError(newUrl: Refresh, readableLength: nat)
      requires Valid()
      requires awaiting.Some?
      modifies this
      ensures Valid()
      ensures Snapshot() == RetriedAfterFailure(old(Snapshot()), newUrl, readableLength)
    {
      if newUrl.None? {
        Stall();
      } else {
        Retry(newUrl.value, readableLength);
      }
    }

    /** The awaited refresh rejected: the handler stops before releasing the lock. */
    method Stall()
      requires Valid()
      requires awaiting.Some?
      modifies this
      ensures Valid()
      ensures Snapshot() == old(Snapshot()).(awaiting := None, stalled := true)
    {
      RetriedInv(Snapshot(), None, 0);
      awaiting := None;
      stalled := true;
    }

    /** The refresh resolved to `newUrl`: take it, unlock, reset the timer and tick. */
    method Retry(newUrl: Url, readableLength: nat)
      requires Valid()
      requires awaiting.Some?
      modifies this
      ensures Valid()
      ensures Snapshot() == RetriedAfterFailure(old(Snapshot()), Some(newUrl), readableLength)
    {
      RetriedInv(Snapshot(), Some(newUrl), readableLength);
      RefreshStreamUrl(newUrl);
      locked := false;
      awaiting := None;
      timerResets := timerResets + 1;
      Tick(readableLength);
    }

    method OnStatus(status: int, hasBody: bool, newUrl: Refresh, readableLength: nat)
      requires Valid()
      requires awaiting.Some?
      modifies this
      ensures Valid()
      ensures Snapshot() == ResponseHandled(old(Snapshot()), status, hasBody, newUrl, readableLength)
    {
      ResponseHandledInv(Snapshot(), status, hasBody, newUrl, readableLength);
      if status >= 400 {
        OnRequestError(newUrl, readableLength);
        return;
      }
      var p := awaiting.value;
      if !hasBody {
        input := None;
        locked := false;
        awaiting := None;
        return;
      }
      input := Some(|bodies|);
      bodies := bodies + [Body(p.end, Streaming)];
      locked := false;
      awaiting := None;
      CheckFinished(p.sampled);
    }

    method OnChunk(i: nat, chunk: Chunk)
      requires Valid()
      requires IsStreaming(Snapshot(), i)
      modifies this
      ensures Valid()
      ensures Snapshot() == ChunkReceived(old(Snapshot()), i, chunk)
    {
      ChunkReceivedInv(Snapshot(), i, chunk);
      pushed := pushed + [chunk];
      bytesReceived := bytesReceived + |chunk|;
    }

    /** The end check of body `i`; the source re-runs it every second while locked. */
    method EndCheck(i: nat)
      requires Valid()
      requires i < |bodies| && bodies[i].state == EndPending
      modifies this
      ensures Valid()
      ensures Snapshot() == EndChecked(old(Snapshot()), i)
    {
      EndCheckedInv(Snapshot(), i);
      if locked {
        return;
      }
      var end := bodies[i].end;
      bodies := bodies[i := bodies[i].(state := Ended)];
      if end as int >= contentLength as int - 1 {
        locked := true;
        outputEnded := true;
        fetchCompleted := true;
      }
    }

    method OnEnd(i: nat)
      requires Valid()
      requires IsStreaming(Snapshot(), i)
      modifies this
      ensures Valid()
      ensures Snapshot() == BodyEnded(old(Snapshot()), i)
    {
      BodyEndedInv(Snapshot(), i);
      bodies := bodies[i := bodies[i].(state := EndPending)];
      EndCheck(i);
    }

    /** Body `i` is marked failed and the session destroyed. */
    method FailBody(i: nat)
      requires Valid()
      requires IsStreaming(Snapshot(), i)
      modifies this
      ensures Valid()
      ensures Snapshot() == Destroyed(old(Snapshot()).(bodies := old(bodies)[i := old(bodies)[i].(state := Failed)]))
    {
      bodies := bodies[i := bodies[i].(state := Failed)];
      Destroy();
    }

    method OnBodyError(i: nat, newUrl: Refresh, readableLength: nat)
      requires Valid()
      requires IsStreaming(Snapshot(), i)
      modifies this
      ensures Valid()
      ensures Snapshot() == BodyFailed(old(Snapshot()), i, newUrl, readableLength)
    {
      BodyFailedInv(Snapshot(), i, newUrl, readableLength);
      FailBody(i);
      if newUrl.None? {
        return;
      }
      RefreshStreamUrl(newUrl.value);
      timerResets := timerResets + 1;
      Tick(readableLength);
    }

    /** The destination's `close` handler. */
    method OnOutputClose()
      requires Valid()
      modifies this
      ensures Valid()
      ensures Snapshot() == OutputClosed(old(Snapshot()))
    {
      DestroyedInv(Snapshot().(outputDestroyed := true, timerDestroyed := true));
      outputDestroyed := true;
      timerDestroyed := true;
      Destroy();
    }

    method Pause()
      requires Valid()
      modifies this
      ensures Valid()
      ensures Snapshot() == old(Snapshot()).(timerPaused := true)
    {
      timerPaused := true;
    }

    method Resume()
      requires Valid()
      modifies this
      ensures Valid()
      ensures Snapshot() == old(Snapshot()).(timerPaused := false)
    {
      timerPaused := false;
    }
  }
}
