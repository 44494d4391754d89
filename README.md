# NekoMelody in Dafny

This is a verified model of the core of NekoMelody, a TypeScript audio-streaming library. The library finds a playable audio resource through a provider and downloads it in HTTP byte ranges of at most 1 MiB. It feeds the bytes into a readable stream and keeps a queue of tracks to play next.

The model covers four parts of the library.

- **The range-fetch engine.** This is `SeekableStream` in `src/utils/SeekableStream.ts` (`SeekableStreams.dfy`). A timer ticks. Each tick asks for the next range when three things hold:
  - no request is in flight;
  - the output holds less than 1 MiB;
  - bytes remain.

  The body's chunks are pushed to the output and counted. Errors refresh the resource's information. The session destroys itself once everything was received and the output is drained.
- **The older engine.** This is `Stream` in `src/utils/stream.ts` (`LegacyStreams.dfy`). Completion is a monotonic `fetchCompleted` flag, set by an end check that waits while the session is locked. The lock is released as soon as a body's listeners are attached.
- **The HTTP helpers.**
  - The redirect loop shared by `getStream` and `fetchStream` (`Redirects.dfy`).
  - From `src/utils/Request.ts` (`Requests.dfy`):
    - the request-config merge with its `Object.assign` override;
    - the cookie header;
    - the thirty-minute staleness rule for the browser session;
    - the WebM audio filter and the stable "medium quality first" sort;
    - the error cases of `getYouTubeFormats`.
- **The player.** This is `Player` in `src/player/index.ts` (`Players.dfy`). It covers:
  - sticky provider selection;
  - rejection of livestreams;
  - the "start now or append" rule of `enqueue`;
  - the first-in first-out queue advanced by the stream-destroyed handler;
  - seek as a replay of the reference URL.

`Common.dfy`, `Text.dfy` and `Ranges.dfy` hold the shared definitions:
- the information record;
- decimal numerals for the `range` header;
- the 1 MiB range arithmetic.

Asynchronous JavaScript becomes a sequence of handler calls. Each callback of the source is a method of the class that models it. In the two stream engines, the value an awaited call resolved to is a parameter of the method that resumes after it. Such values include:
- the refreshed information;
- the output's `readableLength` at the moment the source reads it;
- a response's status;
- the outcome of an awaited refresh, `None` when its promise rejects.

Each class also has a value type of its whole state (`Session`, `State`). Every method is specified by a step function on that value, as `Snapshot() == Step(old(Snapshot()), ...)`. Every method that models a callback or a public operation also keeps the class invariant `Valid()`, which is the session invariant of the snapshot. The properties are lemmas about the step functions and about runs of events. These include:
- invariants preserved by every event;
- the lock rules: on a live session of `SeekableStream` it is held exactly while a request or body is in flight, and in `Stream` only while a tick waits for headers or after completion, except that a refresh whose promise rejects leaves it held for good in both engines, because no handler catches that rejection;
- permanence of `destroyed` and `fetchCompleted`;
- the gate and completion rules;
- the order of the queue;
- the exact requests a download makes.

Range headers have an inclusive last byte, as in section 14.1.2 of RFC 9110. `bytes=r-end` with `end = min(r + 1048576, size)` therefore asks for up to 1 MiB + 1 bytes. `bytesReceived` counts what actually arrived, so the next range starts one past the last byte served. A 3 MiB resource is fetched as `bytes=0-1048576`, `bytes=1048577-2097153` and `bytes=2097154-3145728` (`ThreeMiBDownload`).

## Model

| member | source | states |
|---|---|---|
| Ranges.RangeEnd | src/utils/SeekableStream.ts:73-76 | the range end is the smaller of received + 1 MiB and the file size: at most both, equal to one |
| Ranges.NextRange | src/utils/SeekableStream.ts:73-77 | the next range starts at `bytesReceived`, ends after it and no later than the file size, and spans at most 1 MiB |
| Ranges.RangeHeader | src/utils/SeekableStream.ts:77 | the header has the `bytes=` form |
| Ranges.RangeHeaderRoundTrip | src/utils/SeekableStream.ts:77 | the `bytes=first-last` header reads back as the range it was built from |
| Ranges.ServedLength | src/utils/SeekableStream.ts:125-128 | a server following RFC 9110 sends between 1 and last-first+1 bytes, never past the end of the resource, and exactly up to the end when `last` reaches it |
| Ranges.ScheduleBounds | src/utils/SeekableStream.ts:66-77 | every range of a full download starts at or after the start point, inside the file, and asks for at most 1 MiB + 1 bytes |
| Ranges.ScheduleContiguous | src/utils/SeekableStream.ts:73-128 | successive ranges neither overlap nor leave gaps: each starts one past the previous range's last byte |
| Ranges.ScheduleComplete | src/utils/SeekableStream.ts:66-128 | the served bytes add up to exactly the missing bytes, and the last range reaches the final byte |
| Ranges.ThreeMiBSchedule | src/utils/SeekableStream.ts:73-77 | a 3 MiB file needs exactly the ranges 0-1048576, 1048577-2097153, 2097154-3145728 |
| Redirects.FollowRedirects | src/utils/Request.ts:37-63 | the loop returns what `Fetch` specifies, ends after at most one hop per known URL, and never returns a followable redirect; `fetchStream` in src/utils/stream.ts:33-59 is the same loop |
| Redirects.ResolveOk | src/utils/stream.ts:42-55 | a successful fetch ends on a response that is not a 3xx with a location, and that response is one the network gives |
| Redirects.NoRedirectReturnsFirst | src/utils/Request.ts:42-59 | a first response that is not a redirect is returned unchanged |
| Redirects.SelfRedirectIsLoop | src/utils/Request.ts:51-54 | a URL redirecting to itself fails with "Redirection loop detected"; the start URL is not marked visited, so it is requested twice |
| Redirects.AlternatingRedirectIsLoop | src/utils/stream.ts:47-51 | A to B to A fails as a redirection loop |
| Redirects.ChainIsFollowed | src/utils/Request.ts:46-57 | A to B to C with distinct URLs returns C's response |
| Redirects.FetchFollowsWalk | src/utils/Request.ts:37-63 | every outcome of the loop is described by the plain chain of locations (`Walk`, which remembers nothing) at some request number |
| Redirects.FetchOkIff | src/utils/Request.ts:37-63 | the loop returns `r` if and only if `r` is the response at the first request of the chain that is not a 3xx with a location, reached with every followed location different |
| Redirects.FetchLoopIff | src/utils/Request.ts:46-54 | "Redirection loop detected" if and only if a followed location equals one followed before, ahead of any non-redirect response or rejected request; the start URL does not count as followed |
| Redirects.FetchTransportIff | src/utils/Request.ts:37-63 | the loop rejects for `v` if and only if the chain reaches `v`, which the network does not answer, without a repeated location |
| Requests.CallerHeadersReplaceMerged | src/utils/Request.ts:13-27 | caller-supplied headers replace the merged global headers and Cookie wholesale |
| Requests.DefaultHeadersCarryCookie | src/utils/Request.ts:14-24 | without caller headers the request carries every global header, plus `Cookie` set to the global cookie string |
| Requests.RangeRequestConfig | src/utils/SeekableStream.ts:78-82 | a range request is a GET to the URL with a stream response and the single `range` header, and no cookie |
| Requests.LegacyConfigDiffersOnlyInHeaders | src/utils/stream.ts:7-23 | the older builder equals the newer one except for headers; with caller headers the two agree, and without them it sends none |
| Requests.CookieHeaderEmpty | src/utils/Request.ts:106-108 | the cookie header is empty if and only if there are no cookies |
| Requests.CookiePairRoundTrip | src/utils/Request.ts:107 | a well-formed `name=value` pair splits back into its cookie |
| Requests.CookieHeaderRoundTrip | src/utils/Request.ts:106-108 | the header joined with "; " lists every well-formed cookie in order: parsing it returns the cookies |
| Requests.StalenessPersists | src/utils/Request.ts:67-71 | once the browser path is due, it stays due as time passes |
| Requests.FreshForThirtyMinutes | src/utils/Request.ts:67-113 | after a browser visit that returned cookies, the plain request is used exactly while at most 30·60·1000 ms have passed |
| Requests.NoCookiesMeansBrowserAgain | src/utils/Request.ts:67-68 | a visit that returned no cookies leaves the browser path due |
| Requests.FilterWebmAudio | src/utils/Request.ts:140-142 | a format is kept if and only if it is in the input and its MIME type starts with `audio/webm;` |
| Requests.FilterKeepsEveryCopy | src/utils/Request.ts:140-142 | each WebM audio format is kept as often as it occurs in the input, and no other format is kept |
| Requests.FilterKeepsOrder | src/utils/Request.ts:140-142 | the filtered list is the input read at strictly increasing positions, so input order is kept |
| Requests.SortByQuality | src/utils/Request.ts:145-149 | the sort is a permutation of its input |
| Requests.SortIsStablePartition | src/utils/Request.ts:145-149 | the sorted list is the medium-quality formats in input order, followed by the others in input order |
| Requests.SortedByQuality | src/utils/Request.ts:145-149 | no non-medium format precedes a medium one |
| Requests.SortIsStable | src/utils/Request.ts:145-149 | the relative order within each quality group is kept |
| Requests.SelectAudioFormatsSpec | src/utils/Request.ts:140-149 | the result is the filtered list's medium-quality formats followed by its other formats, each group in filtered order; a permutation of the filtered list containing exactly the WebM audio formats |
| Requests.FormatsFromPage | src/utils/Request.ts:129-151 | "Failed to get YouTube formats" if and only if the pattern captured nothing; "Failed to parse" if and only if no formats were parsed; otherwise exactly the WebM audio formats |
| Requests.YouTubeSession.constructor | src/utils/Request.ts:4-6 | no headers, no cookies and no last update at start |
| Requests.YouTubeSession.GetYouTubeFormats | src/utils/Request.ts:65-156 | the browser is used exactly when the staleness rule says so, and then headers, cookies and last update are replaced; otherwise the module state is unchanged; the loaded page decides the result |
| SeekableStreams.StartedInv | src/utils/SeekableStream.ts:25-48 | the session invariant holds after construction |
| SeekableStreams.StepInv | src/utils/SeekableStream.ts:50-159 | every event keeps the invariant: an in-flight request holds the lock, and a live session holds it only then; `bytesReceived` and `bytesRead` are the lengths of the chunks pushed and emitted; the timer is destroyed at most once; a destroyed session has destroyed timer and output |
| SeekableStreams.RunInv | src/utils/SeekableStream.ts:25-185 | the invariant holds after every feasible sequence of events |
| SeekableStreams.LockHeldWhileInFlightOrStalled | src/utils/SeekableStream.ts:66-145 | in every reachable live session the lock is held exactly while a request or a body is in flight, or after a refresh whose promise rejected |
| SeekableStreams.RejectedRefreshStalls | src/utils/SeekableStream.ts:88-97 | when the refresh after a failed request rejects, the handler stops with the lock held, no new request, and information and timer untouched |
| SeekableStreams.StalledStep | src/utils/SeekableStream.ts:63-82 | in a stalled session no event releases the lock or issues a request; received bytes and information stay, and only a destroy call or a completed download can destroy it |
| SeekableStreams.StalledRunIssuesNothing | src/utils/SeekableStream.ts:63-82 | once stalled, no sequence of events issues a request or releases the lock; without a destroy call an unfinished session stays alive |
| SeekableStreams.RejectedRefreshStallsForever | src/utils/SeekableStream.ts:88-97 | if the first request fails and its refresh rejects, the session has made exactly that one request forever, received nothing, and stays alive and locked until destroyed from outside |
| SeekableStreams.TickGate | src/utils/SeekableStream.ts:63-82 | a tick requests exactly when the session is alive, unlocked, the buffer is under 1 MiB and bytes remain; the request is `bytes=received-min(received+1MiB,size)` to the current URL and takes the lock |
| SeekableStreams.TickCompletion | src/utils/SeekableStream.ts:149-156 | a tick on a live session destroys it if and only if everything was received and the output is empty |
| SeekableStreams.SingleFlight | src/utils/SeekableStream.ts:66-145 | while a request or body is in flight, no event other than its own response issues another request |
| SeekableStreams.NoRepeatBeforeBodyEnds | src/utils/SeekableStream.ts:138-145 | a tick between a response and its first chunk does not repeat the range |
| SeekableStreams.FailureKeepsProgress | src/utils/SeekableStream.ts:88-114 | a failed request replaces the information wholesale, resets the timer and keeps the bytes received; the re-tick relocks exactly when its gate passes on the new file size |
| SeekableStreams.NoBodyOnlyUnlocks | src/utils/SeekableStream.ts:116-119 | a response without a body only releases the lock |
| SeekableStreams.DestroyedIsFinal | src/utils/SeekableStream.ts:53-59 | no event clears `destroyed` or issues a request on a destroyed session |
| SeekableStreams.DestroyedRunIssuesNothing | src/utils/SeekableStream.ts:53-59 | once destroyed, no sequence of events issues a request |
| SeekableStreams.BodyErrorIsTerminal | src/utils/SeekableStream.ts:130-136 | after a body error, although the handler refreshes and re-ticks, the session stays destroyed and never fetches again |
| SeekableStreams.DestroyIdempotent | src/utils/SeekableStream.ts:180-185 | destroying twice equals destroying once, and the timer is destroyed only when not already destroyed |
| SeekableStreams.RoundFollowsSchedule | src/utils/SeekableStream.ts:66-145 | one tick-response-body-end round issues the schedule's next range and receives exactly the bytes served |
| SeekableStreams.DownloadFollowsSchedule | src/utils/SeekableStream.ts:50-159 | from an idle live session, against a conforming server, the session issues exactly the scheduled requests, in order and to one URL, and receives the whole file |
| SeekableStreams.FirstRoundFollowsSchedule | src/utils/SeekableStream.ts:25-145 | the constructor's tick issues the schedule's first range; its response, body and end leave an idle, unlocked session holding the bytes served |
| SeekableStreams.FirstRoundAnswers | src/utils/SeekableStream.ts:105-145 | a live session awaiting the first scheduled range accepts a 206 answer, its body and its end; it is left idle and unlocked holding the bytes served, with no new request and no refresh |
| SeekableStreams.RecoveryRoundFollowsSchedule | src/utils/SeekableStream.ts:105-113 | a 403 to the constructor's first request whose refresh resolves counts one refresh, adopts the new information and re-issues the schedule's first range against the new URL; answering it leaves an idle, unlocked session |
| SeekableStreams.RecoveredDownloadCompletes | src/utils/SeekableStream.ts:50-159 | after that recovery, a conforming server makes the session request the first range of the old URL and then exactly the schedule from 0 against the new URL, receive the new file size, refresh once and be destroyed |
| SeekableStreams.ReceivedMayExceedFileSize | src/utils/SeekableStream.ts:125-128 | a body longer than its range is counted in full: a 1-byte file followed by a 3-byte chunk reaches `bytesReceived == 3`, with the invariant kept |
| SeekableStreams.ConstructedDownloadFollowsSchedule | src/utils/SeekableStream.ts:25-159 | a constructed session, against a conforming server, issues exactly the scheduled requests from byte 0, receives the whole file and is destroyed by the last tick on its drained output |
| SeekableStreams.ThreeMiBDownload | src/utils/SeekableStream.ts:25-159 | a constructed 3 MiB session issues exactly the three requests 0-1048576, 1048577-2097153, 2097154-3145728 and then destroys itself |
| SeekableStreams.SeekableStream.constructor | src/utils/SeekableStream.ts:25-48 | fields start at zero and unlocked, and one tick runs on the empty output |
| SeekableStreams.SeekableStream.Destroy | src/utils/SeekableStream.ts:180-185 | the new state is `Destroyed` of the old |
| SeekableStreams.SeekableStream.Tick | src/utils/SeekableStream.ts:50-159 | the new state is `Ticked` of the old |
| SeekableStreams.SeekableStream.OnTimer | src/utils/SeekableStream.ts:38-44 | the timer's callback resets the timer and ticks |
| SeekableStreams.SeekableStream.RefreshInformation | src/utils/SeekableStream.ts:169-174 | only `information` changes, to the refreshed value |
| SeekableStreams.SeekableStream.OnRequestError | src/utils/SeekableStream.ts:88-97 | refresh, unlock, reset the timer and tick again; if the refresh rejects, stop stalled with the lock held |
| SeekableStreams.SeekableStream.Stall | src/utils/SeekableStream.ts:92 | a rejected refresh leaves only the request state changed, to stalled, with the lock still held |
| SeekableStreams.SeekableStream.Retry | src/utils/SeekableStream.ts:92-96 | the new state is the failed request retried with the refreshed information |
| SeekableStreams.SeekableStream.Release | src/utils/SeekableStream.ts:93-94 | the lock is released, the failed request forgotten and the timer reset; nothing else changes |
| SeekableStreams.SeekableStream.OnNoBody | src/utils/SeekableStream.ts:116-119 | only the lock is released |
| SeekableStreams.SeekableStream.OnStatus | src/utils/SeekableStream.ts:105-156 | status 400 or more retries (stalling if the refresh rejects); a missing body unlocks; otherwise the body is attached and the completion check runs |
| SeekableStreams.SeekableStream.OnChunk | src/utils/SeekableStream.ts:125-128 | the chunk is appended to the output and `bytesReceived` grows by its length |
| SeekableStreams.SeekableStream.OnEnd | src/utils/SeekableStream.ts:138-145 | the body's end releases the lock |
| SeekableStreams.SeekableStream.OnBodyError | src/utils/SeekableStream.ts:130-136 | destroy, then refresh, reset the timer and tick; if the refresh rejects, stop after the destroy |
| SeekableStreams.SeekableStream.OnOutputData | src/utils/SeekableStream.ts:34-36 | `bytesRead` grows by the emitted chunk's length |
| LegacyStreams.StartedInv | src/utils/stream.ts:83-116 | the invariant holds after construction |
| LegacyStreams.StepInv | src/utils/stream.ts:132-260 | every event keeps the invariant: the lock is held exactly while a tick is suspended or after completion; a completed fetch is locked for good and has ended the output; the output ends exactly when the fetch completes; `bytesReceived` counts all pushed bytes |
| LegacyStreams.RunInv | src/utils/stream.ts:83-282 | the invariant holds after every feasible sequence of events |
| LegacyStreams.LockHeldForHeadersCompletionOrStall | src/utils/stream.ts:154-247 | in every reachable session the lock is held exactly while a tick awaits its response headers, after the fetch completed, or after a refresh whose promise rejected; it never covers a streaming body |
| LegacyStreams.RejectedRefreshStalls | src/utils/stream.ts:173-183 | when the URL refresh after a failed request rejects, the handler stops with the lock held, the URL, requests and timer untouched, and the fetch not completed |
| LegacyStreams.StalledStep | src/utils/stream.ts:154-169 | in a stalled session every event keeps the stall (locked, no response awaited, not completed, output open), issues no request and emits no "finished" |
| LegacyStreams.StalledRunIssuesNothing | src/utils/stream.ts:154-169 | once stalled, no sequence of events issues a request, completes the fetch or emits "finished" |
| LegacyStreams.RejectedRefreshStallsForever | src/utils/stream.ts:173-183 | if the first request fails and its refresh rejects, the session has made exactly that one request forever and never completes, ends its output or emits "finished" |
| LegacyStreams.TickGate | src/utils/stream.ts:154-169 | a tick requests exactly when unlocked, not completed and the sampled buffer is under 1 MiB; the range is `received-min(received+1MiB, contentLength)` |
| LegacyStreams.DestroyedTickOnlyStopsTimer | src/utils/stream.ts:133-137 | a tick on a destroyed session only destroys the timer |
| LegacyStreams.DestinationGoneDestroys | src/utils/stream.ts:139-146 | a tick after the destination was destroyed destroys timer and session and issues nothing |
| LegacyStreams.CloseDestroysAll | src/utils/stream.ts:106-112 | the destination's close destroys the timer and the session and keeps progress |
| LegacyStreams.FinishedRule | src/utils/stream.ts:148-257 | a tick that issues no request emits "finished" and destroys if and only if the fetch completed and the length sampled at the tick's start was 0; otherwise it changes nothing |
| LegacyStreams.ResumedTickNeverFinishes | src/utils/stream.ts:199-257 | a tick resumed by a successful response leaves the lock released and never emits "finished" |
| LegacyStreams.FailureReplacesOnlyUrl | src/utils/stream.ts:173-197 | a failed request replaces only the URL, keeps received bytes and completion, resets the timer, and the re-tick asks the new URL |
| LegacyStreams.EndCheckRule | src/utils/stream.ts:213-238 | the end check waits while locked; once unlocked it completes the fetch if and only if the body's end reached contentLength - 1, and then locks and ends the output |
| LegacyStreams.CompletedIsPermanent | src/utils/stream.ts:224-235 | after completion every event keeps `fetchCompleted`, the lock and the ended output, and issues no request |
| LegacyStreams.CompletedRunIssuesNothing | src/utils/stream.ts:154-235 | once completed, no sequence of events issues a request or clears the flags |
| LegacyStreams.DuplicateRangeRequest | src/utils/stream.ts:247 | as written, a tick between a response and its first chunk requests bytes=0-1048576 a second time, and two bodies for it stream at once |
| LegacyStreams.Stream.constructor | src/utils/stream.ts:83-116 | fields start cleared and one tick runs on the empty output |
| LegacyStreams.Stream.Destroy | src/utils/stream.ts:277-282 | only the current body, if streaming, is destroyed, and `destroyed` is set |
| LegacyStreams.Stream.CheckFinished | src/utils/stream.ts:252-257 | "finished" and destruction when completed and the sample is 0 |
| LegacyStreams.Stream.Tick | src/utils/stream.ts:132-169 | the new state is `Ticked` of the old |
| LegacyStreams.Stream.OnTimer | src/utils/stream.ts:101-104 | the timer's callback resets the timer and ticks |
| LegacyStreams.Stream.RefreshStreamUrl | src/utils/stream.ts:270-275 | only `url` changes |
| LegacyStreams.Stream.OnRequestError | src/utils/stream.ts:173-183 | new URL, unlock, reset the timer, tick; if the refresh rejects, stop stalled with the lock held |
| LegacyStreams.Stream.Stall | src/utils/stream.ts:178 | a rejected refresh only marks the session stalled and stops waiting for headers, with the lock still held |
| LegacyStreams.Stream.Retry | src/utils/stream.ts:178-181 | the new state is the failed request retried with the new URL |
| LegacyStreams.Stream.OnStatus | src/utils/stream.ts:191-257 | status 400 or more retries (stalling if the refresh rejects); a null body unlocks; otherwise attach, unlock at once, check completion on the sample |
| LegacyStreams.Stream.OnChunk | src/utils/stream.ts:208-211 | the chunk is pushed and counted |
| LegacyStreams.Stream.EndCheck | src/utils/stream.ts:214-236 | the new state is `EndChecked` of the old |
| LegacyStreams.Stream.OnEnd | src/utils/stream.ts:213-238 | the body is marked ended and its check runs once |
| LegacyStreams.Stream.OnBodyError | src/utils/stream.ts:240-245 | destroy, then new URL, reset the timer and tick; if the refresh rejects, stop after the destroy |
| LegacyStreams.Stream.OnOutputClose | src/utils/stream.ts:106-112 | timer and session destroyed |
| LegacyStreams.Stream.Pause | src/utils/stream.ts:262-264 | only the timer is paused |
| LegacyStreams.Stream.Resume | src/utils/stream.ts:266-268 | only the timer is resumed |
| Players.SelectProvider | src/player/index.ts:70-80 | the first provider whose `canPlay` holds; none if and only if no provider can play the URL |
| Players.FirstLookupBinds | src/player/index.ts:70-80 | with no bound provider, "No provider can play this URL" if and only if none can play it; otherwise the first that can is bound, even if its lookup then fails |
| Players.ProviderIsSticky | src/player/index.ts:69-83 | a bound provider answers every lookup without consulting `canPlay`, and the state is otherwise unchanged |
| Players.BoundProviderStays | src/player/index.ts:69-83 | play, enqueue, seek and the destroy handler never change a bound provider |
| Players.LivestreamRejected | src/player/index.ts:85-101 | `play` and `enqueue` reject livestream information with queue, stream and events untouched |
| Players.CreateStreamReplaces | src/player/index.ts:24-51 | the old stream is destroyed, a fresh stream with the information and URL is installed, and "play" is emitted |
| Players.EnqueueRule | src/player/index.ts:96-118 | "enqueue" is always emitted and the information returned; playback starts if and only if the player is idle, otherwise the information is appended at the tail |
| Players.PlayEvents | src/player/index.ts:36-48 | one "play" event per song, carrying that song, in queue order |
| Players.DestroyAdvancesQueue | src/player/index.ts:36-48 | a non-empty queue loses exactly its head, which starts playing; an empty queue clears stream and information |
| Players.QueuePlaysInOrder | src/player/index.ts:36-48 | after n destructions the first n queued items have played in queue order, and the rest remain |
| Players.EnqueueTwoThenAdvance | src/player/index.ts:96-118 | on an idle player, enqueue A then B plays A and queues B; destroying A's stream plays B |
| Players.QueueNeverAdvancesAsWritten | src/player/index.ts:36-48 | as written, no sequence of play, enqueue, seek and end-of-stream calls shortens the queue of a player with a stream: the old queue stays its prefix and a stream stays installed |
| Players.EnqueuedSongNeverPlaysAsWritten | src/player/index.ts:59-63 | as written, enqueue A, enqueue B, then ending the current stream destroys A's stream and leaves B queued, never played |
| Players.SeekReplays | src/player/index.ts:120-124 | without a stream, "No stream to seek" and nothing changes; otherwise exactly `play` of the reference URL |
| Players.SampleRateSpec | src/player/index.ts:126-128 | the current bitrate, and 0 if and only if there is no stream or the bitrate is 0 |
| Players.ClearQueueKeepsPlayback | src/player/index.ts:138-140 | the queue is emptied; the stream and current information are kept, as is the invariant |
| Players.PlayedInv | src/player/index.ts:85-94 | `play` keeps the invariant: a stream exactly when current information, which is the stream's; nothing playing or queued is a livestream |
| Players.EnqueuedInv | src/player/index.ts:96-118 | `enqueue` keeps the invariant |
| Players.StreamDestroyedInv | src/player/index.ts:36-48 | the destroy handler keeps the invariant |
| Players.SoughtInv | src/player/index.ts:120-124 | `seek` keeps the invariant |
| Players.Player.constructor | src/player/index.ts:16-18 | an empty, idle player over the given providers |
| Players.Player.GetInformation | src/player/index.ts:69-83 | the state and result are those of `Lookup` |
| Players.Player.CreateStream | src/player/index.ts:24-51 | the new state is `StreamCreated` of the old |
| Players.Player.Play | src/player/index.ts:85-94 | state and outcome as `Played` |
| Players.Player.Enqueue | src/player/index.ts:96-118 | state and outcome as `Enqueued` |
| Players.Player.OnStreamDestroyed | src/player/index.ts:36-48 | the new state is `StreamDestroyed` of the old |
| Players.Player.Seek | src/player/index.ts:120-124 | state and outcome as `Sought` |
| Players.Player.EndCurrentStream | src/player/index.ts:59-63 | destroys the current stream, if any |
| Players.Player.GetCurrentSampleRate | src/player/index.ts:126-128 | returns `SampleRate` of the state |
| Players.Player.GetCurrentAudioInformation | src/player/index.ts:130-132 | returns the current information |
| Players.Player.GetQueue | src/player/index.ts:134-136 | returns the queue |
| Players.Player.ClearQueue | src/player/index.ts:138-140 | only the queue changes, to empty |

## Left out

- HTTP, the browser and yt-dlp (axios, playwright, `src/providers/yt-dlp.ts`) are foreign I/O. The network is an abstract map from URL to response, a page is the value its pattern match and JSON parse produced, and a provider is a set of playable URLs with a catalog of information. axios's own redirect following and its status validation belong to that transport.
- The `ytInitialPlayerResponse` regular expression and `JSON.parse` are a library parser. Only their outcomes are modelled: no match, no formats, or formats.
- Node's `Readable`, `WebmSeeker` and `Timer` are not part of this model:
  - `readableLength` is a parameter, sampled where the source reads it;
  - a push appends to a sequence;
  - timer reset, destroy and pause are counters and flags.
- Pushes into an output that has already ended or been destroyed are recorded like any other. Node would instead raise an error event or drop them.
- The `ticking` guard in `SeekableStream`'s timer callback and the one-second `setTimeout` re-polling of the end check are scheduling. The re-polling is the method `EndCheck`, callable again while the body's check is pending. No mutual exclusion is claimed from the guard.
- `getCurrentTimestamp`, `debugLog` and all logging are floating point and output.
- `Math.random` ids and the `DEBUG_SIMULATE_FAILURE` branches are left out. The branches are dead code.
- `seekTime`, the third constructor argument that `SeekableStream` ignores, is dropped from `Play` and `Seek`. Nothing turns it into a byte offset.
- `Player.startCurrentStream` calls a `start` method that `SeekableStream` does not have, so it is not modelled.
- `Player.on` and the `stream` getter only forward to event emitters. Emitted events are a log.
- The `"destroy"` listener is registered on the output's event emitter, where no `"destroy"` event is emitted (see Findings). The intended handler is the explicit method `OnStreamDestroyed`, and a stream's destruction by the player (`destroyCalls`) is recorded without triggering it.
- Players.Played, Players.Enqueued, Players.Sought: each is one atomic step over the awaited lookup at src/player/index.ts:82, 86 and 97. The source binds `currentProvider` before that await, so overlapping calls can interleave (a later call's lookup resolving first, or a provider bound by a call that has not finished); those interleavings are not modelled.
- SeekableStreams.Inv: does not bound `bytesReceived` by the file size, because the source does not keep that bound. A chunk's length is added unchecked (src/utils/SeekableStream.ts:125-128), so a server that sends more than the range overshoots (`ReceivedMayExceedFileSize`), and a refresh may replace the file size by a smaller one (src/utils/SeekableStream.ts:171-172). Against a conforming server the download ends with `bytesReceived` equal to the file size (`DownloadFollowsSchedule`, `RecoveredDownloadCompletes`).
- `src/stream.ts`, `src/index.ts` and `example/test.ts` are not part of this model.
- `AudioInformation.duration` is carried but not used. `refreshInfoFunction` and `refreshStreamUrlFunction` are abstract: the outcome of the awaited call is a parameter, the new value or `None` for a rejected promise. A rejection escapes the handler uncaught; Node's unhandled-rejection handling is not modelled, only that the handler stops there.
- Players.Player.GetCurrentSampleRate: reads the bitrate the stream was created with. A refresh inside the stream, which replaces the stream's information, is not visible to the player, because streams are opaque handles here.
- Players.Player.GetQueue: returns the queue as a value. The source returns the live array, so a caller's later mutation of it is not modelled.
- Requests.YouTubeSession.GetYouTubeFormats: the browser visit, its completion time and the plain page are parameters, and `Date` is an integer of milliseconds.
- An option the caller set to `undefined` is treated like one it did not set. `Object.assign` would copy the `undefined`.

## Findings

| source | as written | input that shows it | evidently intended | confidence | as-written member | corrected member |
|---|---|---|---|---|---|---|
| src/utils/stream.ts:247 | the lock is released as soon as the body's listeners are attached, before any chunk has arrived, so the next tick computes its range from a `bytesReceived` that has not moved | a 3 MiB resource: the first response arrives, then a timer tick with an empty output comes before the first chunk; `bytes=0-1048576` is requested twice and both bodies push into the output | one request in flight at a time, with the lock released when the body ends, as `SeekableStream` does at src/utils/SeekableStream.ts:138-145 | medium, not executed | LegacyStreams.DuplicateRangeRequest | SeekableStreams.NoRepeatBeforeBodyEnds |
| src/player/index.ts:36 | the queue-advancing listener is registered for `"destroy"` on the stream's output, a Node `Readable`, whose `destroy()` emits `"close"` and never `"destroy"`; the listener never runs and the queue never advances | enqueue A, enqueue B, then end the current stream: A's stream is destroyed and B stays queued, never played | destroying the current stream starts the next queued song, or clears the player when the queue is empty | medium, not executed | Players.EnqueuedSongNeverPlaysAsWritten | Players.QueuePlaysInOrder |
