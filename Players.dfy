/**
 * The playback queue of src/player/index.ts, class `Player`.
 *
 * Providers are values: a provider plays the URLs in `playable` (its
 * `canPlay`) and answers `getInformation` from `catalog`, rejecting URLs it
 * has no entry for. A stream is an opaque handle that carries the information
 * and reference URL it was created with; the stream's own behaviour is
 * SeekableStreams. The `"destroy"` listener that `_createStream` registers is
 * the explicit method `OnStreamDestroyed`.
 *
 * As in the stream engines, `State` is the player's state as a value, each
 * method is specified by a function on it, and the lemmas are about those
 * functions.
 */
module Players {
  import opened Common

  datatype Provider = Provider(playable: set<Url>, catalog: map<Url, AudioInformation>)

  /** A SeekableStream created by the player: a fresh id, its information and its reference URL. */
  datatype StreamHandle = StreamHandle(id: nat, information: AudioInformation, referenceUrl: Url)

  /** The events the player emits. */
  datatype PlayerEvent = PlayEmitted(information: AudioInformation) | EnqueueEmitted(information: AudioInformation)

  datatype PlayerError =
    | NoProvider            // "No provider can play this URL"
    | LookupFailed(url: Url) // the provider's getInformation rejected
    | Livestream            // "Livestreams are not supported yet"
    | NoStreamToSeek        // "No stream to seek"

  datatype State = State(
    currentProvider: Option<Provider>,
    queue: seq<AudioInformation>,
    paused: bool,
    current: Option<AudioInformation>, // currentAudioInformation
    stream: Option<StreamHandle>,      // _stream
    nextId: nat,
    events: seq<PlayerEvent>,
    destroyCalls: seq<nat>)            // ids of the streams `destroy()` was called on, in order

  /** What an asynchronous operation leaves behind: the new state and what it resolved or rejected with. */
  datatype Outcome = Outcome(state: State, result: Result<AudioInformation, PlayerError>)

  function Initial(): State {
    State(None, [], false, None, None, 0, [], [])
  }

  // ---------------------------------------------------------------------------
  // Provider selection
  // ---------------------------------------------------------------------------

  /** The index of the first provider from `k` on whose `canPlay(url)` holds. */
  function FirstPlayable(providers: seq<Provider>, url: Url, k: nat): (r: Option<nat>)
    requires k <= |providers|
    ensures r.Some? ==> k <= r.value < |providers| && url in providers[r.value].playable
    ensures r.Some? ==> forall j :: k <= j < r.value ==> url !in providers[j].playable
    ensures r.None? <==> forall j :: k <= j < |providers| ==> url !in providers[j].playable
    decreases |providers| - k
  {
    if k == |providers| then None
    else if url in providers[k].playable then Some(k)
    else FirstPlayable(providers, url, k + 1)
  }

  /** `providers.filter(p => p.canPlay(url))[0]`. */
  function SelectProvider(providers: seq<Provider>, url: Url): (r: Option<nat>)
    ensures r.Some? ==> r.value < |providers| && url in providers[r.value].playable
    ensures r.Some? ==> forall j :: 0 <= j < r.value ==> url !in providers[j].playable
    ensures r.None? <==> forall j :: 0 <= j < |providers| ==> url !in providers[j].playable
  {
    FirstPlayable(providers, url, 0)
  }

  /**
   * `getInformation(url)`: the bound provider if there is one, otherwise the
   * first that can play `url`, which becomes bound even when its lookup then
   * rejects.
   */
  function Lookup(providers: seq<Provider>, s: State, url: Url): Outcome {
    var chosen :=
      if s.currentProvider.Some? then s.currentProvider
      else match SelectProvider(providers, url)
        case None => None
        case Some(i) => Some(providers[i]);
    match chosen
    case None => Outcome(s, Err(NoProvider))
    case Some(p) =>
      var s1 := s.(currentProvider := Some(p));
      if url in p.catalog then Outcome(s1, Ok(p.catalog[url])) else Outcome(s1, Err(LookupFailed(url)))
  }

  // ---------------------------------------------------------------------------
  // Operations
  // ---------------------------------------------------------------------------

  /** `_createStream(information, url)`: destroy the current stream, install a new one, emit "play". */
  function StreamCreated(s: State, information: AudioInformation, url: Url): State {
    var calls := if s.stream.Some? then s.destroyCalls + [s.stream.value.id] else s.destroyCalls;
    s.(destroyCalls := calls,
       stream := Some(StreamHandle(s.nextId, information, url)), nextId := s.nextId + 1,
       current := Some(information), events := s.events + [PlayEmitted(information)])
  }

  /** `play(url)`. */
  function Played(providers: seq<Provider>, s: State, url: Url): Outcome {
    var o := Lookup(providers, s, url);
    if o.result.Err? then o
    else if o.result.value.livestream then Outcome(o.state, Err(Livestream))
    else Outcome(StreamCreated(o.state, o.result.value, url), o.result)
  }

  /** Whether `enqueue` starts playback itself. */
  predicate Idle(s: State) {
    s.queue == [] && s.current.None? && s.stream.None? && !s.paused
  }

  /** `enqueue(url)`: emit "enqueue", then play at once when idle, otherwise append to the queue. */
  function Enqueued(providers: seq<Provider>, s: State, url: Url): Outcome {
    var o := Lookup(providers, s, url);
    if o.result.Err? then o
    else
      var info := o.result.value;
      if info.livestream then Outcome(o.state, Err(Livestream))
      else
        var s1 := o.state.(events := o.state.events + [EnqueueEmitted(info)]);
        if Idle(s1) then Outcome(StreamCreated(s1, info, url), o.result)
        else Outcome(s1.(queue := s1.queue + [info]), o.result)
  }

  /** The `"destroy"` listener: start the queue's head, or clear the stream and the information. */
  function StreamDestroyed(s: State): State {
    if |s.queue| > 0 then
      var next := s.queue[0];
      StreamCreated(s.(queue := s.queue[1..]), next, next.url)
    else s.(stream := None, current := None)
  }

  /** `seek(time)`: replay the current stream's reference URL. */
  function Sought(providers: seq<Provider>, s: State): Outcome {
    if s.stream.None? then Outcome(s, Err(NoStreamToSeek))
    else Played(providers, s, s.stream.value.referenceUrl)
  }

  /** `endCurrentStream()`. */
  function StreamEnded(s: State): State {
    if s.stream.Some? then s.(destroyCalls := s.destroyCalls + [s.stream.value.id]) else s
  }

  /** `getCurrentSampleRate()`: the stream's bitrate, 0 without a stream or with a falsy bitrate. */
  function SampleRate(s: State): int {
    if s.stream.Some? && s.stream.value.information.bitrate != 0 then s.stream.value.information.bitrate else 0
  }

  // ---------------------------------------------------------------------------
  // The player invariant
  // ---------------------------------------------------------------------------

  /**
   * A stream exists exactly when there is current information, and that is
   * the stream's information; stream ids were handed out; nothing queued or
   * playing is a livestream; the player is never paused.
   */
  ghost predicate Inv(s: State) {
    && (s.stream.Some? <==> s.current.Some?)
    && (s.stream.Some? ==> s.current.value == s.stream.value.information && s.stream.value.id < s.nextId)
    && (s.current.Some? ==> !s.current.value.livestream)
    && (forall i :: 0 <= i < |s.queue| ==> !s.queue[i].livestream)
    && (forall i :: 0 <= i < |s.destroyCalls| ==> s.destroyCalls[i] < s.nextId)
    && !s.paused
  }

  lemma InitialInv()
    ensures Inv(Initial())
  {
  }

  lemma LookupKeepsRest(providers: seq<Provider>, s: State, url: Url)
    ensures Lookup(providers, s, url).state == s.(currentProvider := Lookup(providers, s, url).state.currentProvider)
  {
  }

  lemma StreamCreatedInv(s: State, information: AudioInformation, url: Url)
    requires Inv(s) && !information.livestream
    ensures Inv(StreamCreated(s, information, url))
  {
  }

  lemma PlayedInv(providers: seq<Provider>, s: State, url: Url)
    requires Inv(s)
    ensures Inv(Played(providers, s, url).state)
  {
    var o := Lookup(providers, s, url);
    LookupKeepsRest(providers, s, url);
    if o.result.Ok? && !o.result.value.livestream {
      StreamCreatedInv(o.state, o.result.value, url);
    }
  }

  lemma EnqueuedInv(providers: seq<Provider>, s: State, url: Url)
    requires Inv(s)
    ensures Inv(Enqueued(providers, s, url).state)
  {
    var o := Lookup(providers, s, url);
    LookupKeepsRest(providers, s, url);
    if o.result.Ok? && !o.result.value.livestream {
      var s1 := o.state.(events := o.state.events + [EnqueueEmitted(o.result.value)]);
      if Idle(s1) {
        StreamCreatedInv(s1, o.result.value, url);
      } else {
        assert s1.queue + [o.result.value] == s.queue + [o.result.value];
      }
    }
  }

  lemma StreamDestroyedInv(s: State)
    requires Inv(s)
    ensures Inv(StreamDestroyed(s))
  {
    if |s.queue| > 0 {
      StreamCreatedInv(s.(queue := s.queue[1..]), s.queue[0], s.queue[0].url);
    }
  }

  lemma SoughtInv(providers: seq<Provider>, s: State)
    requires Inv(s)
    ensures Inv(Sought(providers, s).state)
  {
    if s.stream.Some? {
      PlayedInv(providers, s, s.stream.value.referenceUrl);
    }
  }

  // ---------------------------------------------------------------------------
  // Properties
  // ---------------------------------------------------------------------------

  /**
   * Stickiness: once a provider is bound it answers every lookup, whether or
   * not it can play the URL, and it stays bound.
   */
  lemma ProviderIsSticky(providers: seq<Provider>, s: State, url: Url)
    requires s.currentProvider.Some?
    ensures var o := Lookup(providers, s, url);
      && o.state == s
      && (url in s.currentProvider.value.catalog ==> o.result == Ok(s.currentProvider.value.catalog[url]))
      && (url !in s.currentProvider.value.catalog ==> o.result == Err(LookupFailed(url)))
  {
  }

  /**
   * The first lookup binds the first provider that can play the URL, even when
   * the lookup then rejects; when none can, it fails and binds nothing.
   */
  lemma FirstLookupBinds(providers: seq<Provider>, s: State, url: Url)
    requires s.currentProvider.None?
    ensures var o := Lookup(providers, s, url);
      && (o.result == Err(NoProvider) <==> forall j :: 0 <= j < |providers| ==> url !in providers[j].playable)
      && (o.result == Err(NoProvider) ==> o.state == s)
      && (o.result != Err(NoProvider) ==>
            exists i :: 0 <= i < |providers| && url in providers[i].playable
              && (forall j :: 0 <= j < i ==> url !in providers[j].playable)
              && o.state.currentProvider == Some(providers[i]))
  {
    var r := SelectProvider(providers, url);
    if r.Some? {
      assert Lookup(providers, s, url).state.currentProvider == Some(providers[r.value]);
    }
  }

  /** Every operation keeps a bound provider bound to the same provider. */
  lemma BoundProviderStays(providers: seq<Provider>, s: State, url: Url)
    requires s.currentProvider.Some?
    ensures Played(providers, s, url).state.currentProvider == s.currentProvider
    ensures Enqueued(providers, s, url).state.currentProvider == s.currentProvider
    ensures Sought(providers, s).state.currentProvider == s.currentProvider
    ensures StreamDestroyed(s).currentProvider == s.currentProvider
  {
    if s.stream.Some? {
      ProviderIsSticky(providers, s, s.stream.value.referenceUrl);
    }
  }

  /**
   * Livestream information is rejected by `play` and `enqueue` before the
   * queue, the stream or the events are touched.
   */
  lemma LivestreamRejected(providers: seq<Provider>, s: State, url: Url)
    requires var o := Lookup(providers, s, url); o.result.Ok? && o.result.value.livestream
    ensures var p := Played(providers, s, url);
      p.result == Err(Livestream) && p.state == Lookup(providers, s, url).state
    ensures var e := Enqueued(providers, s, url);
      e.result == Err(Livestream) && e.state == Lookup(providers, s, url).state
    ensures Lookup(providers, s, url).state.queue == s.queue
    ensures Lookup(providers, s, url).state.stream == s.stream
    ensures Lookup(providers, s, url).state.events == s.events
  {
  }

  /** `_createStream` destroys the previous stream, installs a fresh one and emits "play" with the information. */
  lemma CreateStreamReplaces(s: State, information: AudioInformation, url: Url)
    requires Inv(s)
    ensures var t := StreamCreated(s, information, url);
      && t.stream.Some? && t.stream.value.information == information && t.stream.value.referenceUrl == url
      && t.stream != s.stream
      && t.current == Some(information)
      && t.events == s.events + [PlayEmitted(information)]
      && (s.stream.Some? ==> t.destroyCalls == s.destroyCalls + [s.stream.value.id])
      && t.queue == s.queue
  {
  }

  /**
   * `enqueue` emits "enqueue" with the information and resolves with it; it
   * starts playback exactly when the queue is empty, nothing is playing and
   * the player is not paused, and appends to the queue's tail otherwise.
   */
  lemma EnqueueRule(providers: seq<Provider>, s: State, url: Url)
    requires var o := Lookup(providers, s, url); o.result.Ok? && !o.result.value.livestream
    ensures var info := Lookup(providers, s, url).result.value;
      var e := Enqueued(providers, s, url);
      && e.result == Ok(info)
      && |e.state.events| > |s.events| && e.state.events[|s.events|] == EnqueueEmitted(info)
      && (Idle(s) ==> e.state.stream.Some? && e.state.stream.value.information == info && e.state.queue == []
                      && e.state.events == s.events + [EnqueueEmitted(info), PlayEmitted(info)])
      && (!Idle(s) ==> e.state.queue == s.queue + [info] && e.state.stream == s.stream && e.state.current == s.current
                       && e.state.events == s.events + [EnqueueEmitted(info)])
  {
  }

  /**
   * The queue is first in, first out: when a stream is destroyed the head of
   * a non-empty queue starts (with its own URL as the reference URL) and the
   * queue loses exactly that element; with an empty queue the player stops.
   */
  lemma DestroyAdvancesQueue(s: State)
    ensures |s.queue| > 0 ==>
      var t := StreamDestroyed(s);
      && t.queue == s.queue[1..] && |t.queue| == |s.queue| - 1
      && t.stream.Some? && t.stream.value.information == s.queue[0] && t.stream.value.referenceUrl == s.queue[0].url
      && t.current == Some(s.queue[0]) && t.events == s.events + [PlayEmitted(s.queue[0])]
    ensures |s.queue| == 0 ==>
      StreamDestroyed(s) == s.(stream := None, current := None)
  {
  }

  /** The `play` events announcing the songs of `q`, one per song, in queue order. */
  function PlayEvents(q: seq<AudioInformation>): (r: seq<PlayerEvent>)
    ensures |r| == |q|
    ensures forall i :: 0 <= i < |q| ==> r[i] == PlayEmitted(q[i])
  {
    if q == [] then [] else [PlayEmitted(q[0])] + PlayEvents(q[1..])
  }

  /** Announcing the first `n` songs is announcing the head, then the next `n - 1`. */
  lemma PlayEventsOfPrefix(q: seq<AudioInformation>, n: nat)
    requires 0 < n <= |q|
    ensures PlayEvents(q[..n]) == [PlayEmitted(q[0])] + PlayEvents(q[1..][..n - 1])
  {
    assert q[..n] == [q[0]] + q[1..][..n - 1];
  }

  /** `n` successive stream destructions. */
  function Advanced(s: State, n: nat): State
    requires n <= |s.queue|
    decreases n
  {
    if n == 0 then s else Advanced(StreamDestroyed(s), n - 1)
  }

  /**
   * After `n` stream destructions the first `n` queued items have played, in
   * queue order, and the queue holds the rest.
   */
  lemma {:induction false} QueuePlaysInOrder(s: State, n: nat)
    requires n <= |s.queue|
    ensures Advanced(s, n).queue == s.queue[n..]
    ensures Advanced(s, n).events == s.events + PlayEvents(s.queue[..n])
    ensures n > 0 ==> Advanced(s, n).current == Some(s.queue[n - 1])
    decreases n
  {
    if n > 0 {
      var t := StreamDestroyed(s);
      assert t.queue == s.queue[1..];
      QueuePlaysInOrder(t, n - 1);
      assert t.queue[n - 1..] == s.queue[n..];
      PlayEventsOfPrefix(s.queue, n);
      assert t.events == s.events + [PlayEmitted(s.queue[0])];
      if n > 1 {
        assert t.queue[n - 2] == s.queue[n - 1];
      }
    }
  }

  /**
   * From an idle player, enqueueing A and then B plays A and queues B; when
   * A's stream is destroyed B plays and the queue is empty.
   */
  lemma EnqueueTwoThenAdvance(a: Url, b: Url, ia: AudioInformation, ib: AudioInformation)
    requires a != b && !ia.livestream && !ib.livestream && ib.url == b
    ensures var providers := [Provider({a, b}, map[a := ia, b := ib])];
      var s1 := Enqueued(providers, Initial(), a).state;
      var s2 := Enqueued(providers, s1, b).state;
      var s3 := StreamDestroyed(s2);
      && s1.stream == Some(StreamHandle(0, ia, a)) && s1.queue == []
      && s2.stream == s1.stream && s2.queue == [ib]
      && s3.stream == Some(StreamHandle(1, ib, b)) && s3.queue == []
      && s3.events == [EnqueueEmitted(ia), PlayEmitted(ia), EnqueueEmitted(ib), PlayEmitted(ib)]
  {
    var providers := [Provider({a, b}, map[a := ia, b := ib])];
    var p := providers[0];
    assert SelectProvider(providers, a) == Some(0);
    assert Lookup(providers, Initial(), a) == Outcome(Initial().(currentProvider := Some(p)), Ok(ia));
    var s1 := Enqueued(providers, Initial(), a).state;
    assert s1.stream == Some(StreamHandle(0, ia, a));
    assert Lookup(providers, s1, b) == Outcome(s1, Ok(ib));
    var s2 := Enqueued(providers, s1, b).state;
    assert s2.queue == [ib];
  }

  // ---------------------------------------------------------------------------
  // The queue as written: nothing emits "destroy"
  // ---------------------------------------------------------------------------

  /** The player's public calls that change its state. */
  datatype Call = PlayCall(url: Url) | EnqueueCall(url: Url) | SeekCall | EndStreamCall | ClearQueueCall

  /**
   * The state after one call as the source is written: the `"destroy"`
   * listener is registered on the output, which never emits that event, so
   * no call, not even destroying the stream, runs `StreamDestroyed`.
   */
  function CalledAsWritten(providers: seq<Provider>, s: State, c: Call): State {
    match c
    case PlayCall(url) => Played(providers, s, url).state
    case EnqueueCall(url) => Enqueued(providers, s, url).state
    case SeekCall => Sought(providers, s).state
    case EndStreamCall => StreamEnded(s)
    case ClearQueueCall => s.(queue := [])
  }

  function CallsAsWritten(providers: seq<Provider>, s: State, cs: seq<Call>): State
    decreases |cs|
  {
    if cs == [] then s else CallsAsWritten(providers, CalledAsWritten(providers, s, cs[0]), cs[1..])
  }

  /**
   * As written, once a stream exists the queue only grows at its tail until
   * it is cleared: no queued song is ever started, whatever the calls, even
   * after the playing stream is destroyed.
   */
  lemma {:induction false} QueueNeverAdvancesAsWritten(providers: seq<Provider>, s: State, cs: seq<Call>)
    requires s.stream.Some?
    requires forall k :: 0 <= k < |cs| ==> !cs[k].ClearQueueCall?
    ensures var t := CallsAsWritten(providers, s, cs);
      && t.stream.Some? && |s.queue| <= |t.queue| && t.queue[..|s.queue|] == s.queue
    decreases |cs|
  {
    if cs != [] {
      var s1 := CalledAsWritten(providers, s, cs[0]);
      assert s1.stream.Some? && s1.queue[..|s.queue|] == s.queue && |s.queue| <= |s1.queue|;
      QueueNeverAdvancesAsWritten(providers, s1, cs[1..]);
      var t := CallsAsWritten(providers, s, cs);
      assert t.queue[..|s1.queue|][..|s.queue|] == s.queue;
    }
  }

  /**
   * As written, enqueueing A then B on an idle player and then ending A's
   * stream leaves B queued and A current: B never plays.
   */
  lemma EnqueuedSongNeverPlaysAsWritten(a: Url, b: Url, ia: AudioInformation, ib: AudioInformation)
    requires a != b && !ia.livestream && !ib.livestream && ib.url == b
    ensures var providers := [Provider({a, b}, map[a := ia, b := ib])];
      var t := CallsAsWritten(providers, Initial(), [EnqueueCall(a), EnqueueCall(b), EndStreamCall]);
      && t.queue == [ib] && t.current == Some(ia) && t.stream == Some(StreamHandle(0, ia, a))
      && t.destroyCalls == [0]
  {
    var providers := [Provider({a, b}, map[a := ia, b := ib])];
    EnqueueTwoThenAdvance(a, b, ia, ib);
    var s1 := Enqueued(providers, Initial(), a).state;
    var s2 := Enqueued(providers, s1, b).state;
    var cs := [EnqueueCall(a), EnqueueCall(b), EndStreamCall];
    assert CallsAsWritten(providers, Initial(), cs) == CallsAsWritten(providers, s1, cs[1..]);
    assert CallsAsWritten(providers, s1, cs[1..]) == CallsAsWritten(providers, s2, cs[2..]);
    assert CallsAsWritten(providers, s2, cs[2..]) == StreamEnded(s2) by {
      assert cs[2..][1..] == [];
    }
  }

  /**
   * `seek` without a stream rejects and changes nothing; with one it is
   * exactly `play` of the stream's reference URL, so the queue is kept.
   */
  lemma SeekReplays(providers: seq<Provider>, s: State)
    ensures s.stream.None? ==> Sought(providers, s) == Outcome(s, Err(NoStreamToSeek))
    ensures s.stream.Some? ==>
      && Sought(providers, s) == Played(providers, s, s.stream.value.referenceUrl)
      && Sought(providers, s).state.queue == s.queue
      && (Sought(providers, s).result.Ok? ==>
            Sought(providers, s).state.stream.value.referenceUrl == s.stream.value.referenceUrl
            && Sought(providers, s).state.destroyCalls == s.destroyCalls + [s.stream.value.id])
  {
  }

  /** The sample rate is the playing stream's bitrate, and 0 exactly when that is absent or 0. */
  lemma SampleRateSpec(s: State)
    ensures SampleRate(s) == 0 <==> s.stream.None? || s.stream.value.information.bitrate == 0
    ensures s.stream.Some? ==> SampleRate(s) == s.stream.value.information.bitrate
  {
  }

  /** `clearQueue` empties the queue and leaves the stream and the current information alone. */
  lemma ClearQueueKeepsPlayback(s: State)
    requires Inv(s)
    ensures var t := s.(queue := []);
      Inv(t) && t.stream == s.stream && t.current == s.current && t.queue == []
  {
  }

  // ---------------------------------------------------------------------------
  // The class
  // ---------------------------------------------------------------------------

  class Player {
    const providers: seq<Provider>
    var currentProvider: Option<Provider>
    var queue: seq<AudioInformation>
    var paused: bool
    var currentAudioInformation: Option<AudioInformation>
    var stream: Option<StreamHandle>
    var nextId: nat
    var events: seq<PlayerEvent>
    ghost var destroyCalls: seq<nat>

    ghost function Snapshot(): State
      reads this
    {
      State(currentProvider, queue, paused, currentAudioInformation, stream, nextId, events, destroyCalls)
    }

    ghost predicate Valid()
      reads this
    {
      Inv(Snapshot())
    }

    constructor (providers: seq<Provider>)
      ensures this.providers == providers && Snapshot() == Initial() && Valid()
    {
      this.providers := providers;
      currentProvider, queue, paused := None, [], false;
      currentAudioInformation, stream, nextId := None, None, 0;
      events, destroyCalls := [], [];
      InitialInv();
    }

    /** `getInformation(url)`, the provider's answer being its catalog entry. */
    method GetInformation(url: Url) returns (r: Result<AudioInformation, PlayerError>)
      requires Valid()
      modifies this
      ensures Valid()
      ensures Outcome(Snapshot(), r) == Lookup(providers, old(Snapshot()), url)
    {
      LookupKeepsRest(providers, Snapshot(), url);
      if currentProvider.None? {
        var i := 0;
        while i < |providers| && url !in providers[i].playable
          invariant 0 <= i <= |providers|
          invariant FirstPlayable(providers, url, i) == SelectProvider(providers, url)
        {
          i := i + 1;
        }
        if i == |providers| {
          return Err(NoProvider);
        }
        currentProvider := Some(providers[i]);
      }
      var p := currentProvider.value;
      if url in p.catalog {
        r := Ok(p.catalog[url]);
      } else {
        r := Err(LookupFailed(url));
      }
    }

    method CreateStream(information: AudioInformation, url: Url)
      modifies this
      ensures Snapshot() == StreamCreated(old(Snapshot()), information, url)
    {
      if stream.Some? {
        destroyCalls := destroyCalls + [stream.value.id];
      }
      stream := Some(StreamHandle(nextId, information, url));
      nextId := nextId + 1;
      currentAudioInformation := Some(information);
      events := events + [PlayEmitted(information)];
    }

    /** `play(url)`; None when it resolves. */
    method Play(url: Url) returns (error: Option<PlayerError>)
      requires Valid()
      modifies this
      ensures Valid()
      ensures var o := Played(providers, old(Snapshot()), url);
        Snapshot() == o.state && (error.None? <==> o.result.Ok?) && (error.Some? ==> o.result == Err(error.value))
    {
      PlayedInv(providers, Snapshot(), url);
      var r := GetInformation(url);
      if r.Err? {
        return Some(r.error);
      }
      if r.value.livestream {
        return Some(Livestream);
      }
      CreateStream(r.value, url);
      return None;
    }

    method Enqueue(url: Url) returns (r: Result<AudioInformation, PlayerError>)
      requires Valid()
      modifies this
      ensures Valid()
      ensures Outcome(Snapshot(), r) == Enqueued(providers, old(Snapshot()), url)
    {
      EnqueuedInv(providers, Snapshot(), url);
      r := GetInformation(url);
      if r.Err? {
        return;
      }
      var information := r.value;
      if information.livestream {
        return Err(Livestream);
      }
      events := events + [EnqueueEmitted(information)];
      if |queue| == 0 && currentAudioInformation.None? && stream.None? && !paused {
        CreateStream(information, url);
      } else {
        queue := queue + [information];
      }
    }

    /** The listener `_createStream` registers for the stream's `"destroy"` event. */
    method OnStreamDestroyed()
      requires Valid()
      modifies this
      ensures Valid()
      ensures Snapshot() == StreamDestroyed(old(Snapshot()))
    {
      StreamDestroyedInv(Snapshot());
      if |queue| > 0 {
        var next := queue[0];
        queue := queue[1..];
        CreateStream(next, next.url);
      } else {
        stream := None;
        currentAudioInformation := None;
      }
    }

    method Seek() returns (error: Option<PlayerError>)
      requires Valid()
      modifies this
      ensures Valid()
      ensures var o := Sought(providers, old(Snapshot()));
        Snapshot() == o.state && (error.None? <==> o.result.Ok?) && (error.Some? ==> o.result == Err(error.value))
    {
      SoughtInv(providers, Snapshot());
      if stream.None? {
        return Some(NoStreamToSeek);
      }
      error := Play(stream.value.referenceUrl);
    }

    method EndCurrentStream()
      requires Valid()
      modifies this
      ensures Valid()
      ensures Snapshot() == StreamEnded(old(Snapshot()))
    {
      if stream.Some? {
        destroyCalls := destroyCalls + [stream.value.id];
      }
    }

    method GetCurrentSampleRate() returns (rate: int)
      ensures rate == SampleRate(Snapshot())
    {
      rate := 0;
      if stream.Some? && stream.value.information.bitrate != 0 {
        rate := stream.value.information.bitrate;
      }
    }

    method GetCurrentAudioInformation() returns (information: Option<AudioInformation>)
      ensures information == currentAudioInformation
    {
      information := currentAudioInformation;
    }

    method GetQueue() returns (q: seq<AudioInformation>)
      ensures q == queue
    {
      q := queue;
    }

    method ClearQueue()
      requires Valid()
      modifies this
      ensures Valid()
      ensures Snapshot() == old(Snapshot()).(queue := [])
    {
      queue := [];
    }
  }
}
