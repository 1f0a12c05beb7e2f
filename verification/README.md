# Castanets media player proxy, in Dafny

Castanets plays media in a process other than the renderer. This project
models three parts of the renderer side:

- **WebMediaPlayerCastanets**: the proxy that blink sees as its media player.
  It keeps a local copy of the playback state, sends requests to the remote
  player, and updates itself from the remote player's notifications.
- **CastanetsRendererMediaPlayerManager**: the per-frame registry. It hands
  out player ids from a process-wide counter, turns every request into one
  routed host message, and forwards each notification to the registered proxy.
- **GetCleanURL**: the URL sanitiser used when a load starts.

Every operation is a pure function from the proxy's state to a `Step`. A
`Step` holds three things:

- the state afterwards;
- the requests sent through the manager, in order;
- the calls made on the blink client and on the media delegate, in order.

The manager's sent messages are logged as envelopes. Each envelope carries the
frame's routing id, the player id and the host message.

Files:

- `wrappers.dfy`: `Option`.
- `media_types.dfy`: times, rectangles, and the ready and network states.
- `messages.dfy`: the IPC message set.
- `clean_url.dfy`: `GetCleanURL`.
- `player_ids.dfy`: the id counter and its 32-bit arithmetic.
- `manager.dfy`: the registry, the senders and the dispatch.
- `player.dfy`: the proxy.
- `proxy_trace.dfy`: event sequences, the proxy invariant and scenario properties.
- `renderer.dfy`: frames (a manager and its proxies) and the process whose id counter they share.

Modelling choices:

- Times are whole microseconds (`base::TimeDelta`). `Seconds` is the conversion
  to a floating-point second count, written with Dafny reals.
- Player ids are 32-bit values (`bv32`). The masking of the counter is exact,
  and its increment wraps modulo 2^32 (see "Left out" for the signed-int
  overflow this stands in for). The registry key is `PlayerId`, a one-field datatype
  around that `bv32`, so that map updates keyed by an id stay simple to reason about.
- The media-type bit values the remote player uses are a parameter (`MediaBits`).
- Nothing in the model reaches the operating system. The process id, the
  deferred-load decision and the compositor's layer-geometry sample are all
  parameters.
- Every proxy operation that returns a `Step` requires `Ready()`. This means `SetMediaPlayerManager` has run, so
  `manager_` and `player_id_` are set. The source dereferences `manager_`
  unguarded in most operations. The pure queries (`CurrentTime`, `Duration`,
  `Seekable`, `Buffered`, `DidLoadingProgress`, `UpdateBoundaryRectangle`)
  and the timer start and stop do not require it.
- The id counter is one static per renderer process. A `Process` holds it,
  and every frame's manager draws from it, so ids stay distinct across frames.
- A deferred load is handed to the embedder. The embedder running it later is
  an event of its own (`DeferredLoad`), which is `DoLoad` with the load's
  arguments.

Behaviour of the code that the model keeps, and proves, as written:

- `OnSeekComplete` neither sends nor forgets a queued seek. The comment in
  `Seek` says that it will send one. A queued seek therefore outlives its
  seek. A later `Seek(c)` from idle is sent, but `CurrentTime` then reports
  the stale queued time, not `c`. See `QueuedSeekOutlivesCompletion` and
  `CurrentTimeAfterSeek`.
- `Pause` always reports `is_media_related_action` as false.
- `OnTimeUpdate` does not notify the client.
- `SetVolume` does not store the volume. So `OnVolumeMultiplierUpdate` always
  re-sends the initial 1.0.
- `OnPlayerResumed` tests `!delegate_` twice in a row. This behaves as a single test.
- Ids repeat after 2^16 registrations, and a repeated id overwrites the older
  registry entry.

## Model

| member | source | states |
|---|---|---|
| CleanUrl.Find | content/renderer/media/castanets/castanets_webmediaplayer_impl.cc:38 | the first position of the character, with no earlier occurrence; none exactly when the character is absent |
| CleanUrl.GetCleanURL | content/renderer/media/castanets/castanets_webmediaplayer_impl.cc:34-44 | refuses app:// URLs; a non-file URL is unchanged; a file URL becomes its longest prefix without '?', cut exactly at the first '?' |
| CleanUrl.CleanKeepsFileScheme | content/renderer/media/castanets/castanets_webmediaplayer_impl.cc:36-41 | a cleaned file URL is still a file URL (and a file URL is never an app URL) |
| CleanUrl.CleanIdempotent | content/renderer/media/castanets/castanets_webmediaplayer_impl.cc:34-44 | cleaning a cleaned URL changes nothing and is never refused |
| CleanUrl.CleanSplitsOffQuery | content/renderer/media/castanets/castanets_webmediaplayer_impl.cc:36-41 | the URL is the cleaned URL followed by what was dropped, which is empty or starts with '?' |
| PlayerIds.InitialCounter | content/renderer/media/castanets/castanets_renderer_media_player_manager.cc:44 | the counter starts with an all-zero lower half-word |
| PlayerIds.NextId | content/renderer/media/castanets/castanets_renderer_media_player_manager.cc:45-46 | the next id keeps the upper 16 bits and holds the lower 16 bits of the increment |
| PlayerIds.Allocate | content/renderer/media/castanets/castanets_renderer_media_player_manager.cc:44-47 | after any number of registrations from any starting value, the upper half-word of the counter is the starting one |
| PlayerIds.AllocatedHighHalf | content/renderer/media/castanets/castanets_renderer_media_player_manager.cc:44-46 | after any number of registrations the upper half-word is still the initial one |
| PlayerIds.AllocatedLowHalf | content/renderer/media/castanets/castanets_renderer_media_player_manager.cc:45-46 | the lower half-word of the k-th id is k modulo 2^16 |
| PlayerIds.AllocatedIdsCarryProcess | content/renderer/media/castanets/castanets_renderer_media_player_manager.cc:42-46 | every id a process hands out carries the process id shifted left by 16 |
| PlayerIds.WindowIdsDistinct | content/renderer/media/castanets/castanets_renderer_media_player_manager.cc:42-47 | any 2^16 consecutive registrations get pairwise distinct ids |
| PlayerIds.IdsRepeatAfterWindow | content/renderer/media/castanets/castanets_renderer_media_player_manager.cc:45-47 | the registration 2^16 after any other gets the same id again |
| PlayerManager.NewManager | content/renderer/media/castanets/castanets_renderer_media_player_manager.cc:26-30 | a new manager has no players and has sent nothing |
| PlayerManager.Register | content/renderer/media/castanets/castanets_renderer_media_player_manager.cc:39-49 | the id keeps the counter's upper half and increments the lower; the id now finds the player; every other id finds what it found before; nothing is sent |
| PlayerManager.Unregister | content/renderer/media/castanets/castanets_renderer_media_player_manager.cc:51-54 | the id finds nothing; every other id is unaffected; an unknown id leaves the manager unchanged |
| PlayerManager.GetMediaPlayer | content/renderer/media/castanets/castanets_renderer_media_player_manager.cc:56-64 | a player is found exactly when the id is registered, and it is the registered one |
| PlayerManager.CollidingIdOverwrites | content/renderer/media/castanets/castanets_renderer_media_player_manager.cc:44-47 | the 2^16 + 1-th registration from a zero low half gets the first registration's id again and replaces the first player under it |
| PlayerManager.RegisterAll | content/renderer/media/castanets/castanets_renderer_media_player_manager.cc:39-49 | the i-th of a series of registrations returns the (i+1)-th allocated id, the counter ends at the last one, and the last player is found under its id |
| PlayerManager.WindowPlayerIdsDistinct | content/renderer/media/castanets/castanets_renderer_media_player_manager.cc:44-47 | two registrations fewer than 2^16 apart get different player ids |
| PlayerManager.WindowOfRegistrationsRetained | content/renderer/media/castanets/castanets_renderer_media_player_manager.cc:39-49 | within 2^16 registrations from process start, every returned id still finds its own player |
| PlayerManager.RetainedUnlessReused | content/renderer/media/castanets/castanets_renderer_media_player_manager.cc:39-49 | the same for any window of at most 2^16 registrations from a counter with zero lower half |
| PlayerManager.FromHostMsg | content/common/media/castanets_media_player_messages.h:25-133 | decoding a host message gives a request that encodes back to it |
| PlayerManager.ToHostMsg | content/renderer/media/castanets/castanets_renderer_media_player_manager.cc:95-285 | only Initialize sends an Init, carrying the caller's fields plus no encrypted listener, not audio-only and node id 10; no request sends Activate or Deactivate |
| PlayerManager.RequestRoundTrip | content/renderer/media/castanets/castanets_renderer_media_player_manager.cc:220-285 | each request's host message decodes to that request, so distinct requests send distinct messages |
| PlayerManager.InitFromInitializeOnly | content/renderer/media/castanets/castanets_renderer_media_player_manager.cc:95-110 | an Init message comes from Initialize exactly when it carries no encrypted listener, is_audio 0 and node id 10 |
| PlayerManager.Send | content/renderer/media/castanets/castanets_renderer_media_player_manager.cc:220-285 | exactly one envelope is appended, with the frame's routing id and the player id, carrying the request; the registry is untouched |
| PlayerManager.SendAll | content/renderer/media/castanets/castanets_renderer_media_player_manager.cc:220-285 | the requests go out in order, one routed envelope each, after the earlier log |
| PlayerManager.OnMessageReceived | content/renderer/media/castanets/castanets_renderer_media_player_manager.cc:71-93 | handled exactly for player notifications; delivered, unchanged, exactly when the id is registered, to the registered player |
| PlayerManager.DeliveredAfterRegister | content/renderer/media/castanets/castanets_renderer_media_player_manager.cc:112-218 | a notification for a just-returned id reaches the player just registered |
| PlayerManager.DroppedAfterUnregister | content/renderer/media/castanets/castanets_renderer_media_player_manager.cc:112-218 | after unregistering, a notification for the id is dropped |
| Player.ToDelegate | content/renderer/media/castanets/castanets_webmediaplayer_impl.cc:183-185 | the delegate is called once when there is one, and not at all otherwise |
| Player.Create | content/renderer/media/castanets/castanets_webmediaplayer_impl.cc:51-103 | a new proxy is paused, not seeking, not loaded, not registered, at volume 1.0, with the timer stopped |
| Player.Construct | content/renderer/media/castanets/castanets_webmediaplayer_impl.cc:86-88 | the constructed proxy, and one AddObserver on the delegate exactly when there is one |
| Player.SetMediaPlayerManager | content/renderer/media/castanets/castanets_webmediaplayer_impl.cc:122-127 | the proxy becomes registered under the id the manager returned; nothing else changes |
| Player.DoLoad | content/renderer/media/castanets/castanets_webmediaplayer_impl.cc:148-167 | a URL load fixes the player type and sends one Initialize with the cleaned URL and demuxer id 0; other load types do nothing |
| Player.Load | content/renderer/media/castanets/castanets_webmediaplayer_impl.cc:129-146 | reports Deferred exactly when the load is deferred; a deferred load does nothing now, whatever its URL; otherwise it is DoLoad now |
| Player.Play | content/renderer/media/castanets/castanets_webmediaplayer_impl.cc:169-186 | undrawable video only records a pending play, with nothing sent and the pause state kept; otherwise one Start, playing, no pending play, DidPlay to a delegate |
| Player.PauseInternal | content/renderer/media/castanets/castanets_webmediaplayer_impl.cc:188-200 | one Pause with the given flag; paused; any deferred play forgotten; DidPause to a delegate |
| Player.Pause | content/renderer/media/castanets/castanets_webmediaplayer_impl.cc:202-205 | the full result: paused, no pending play, everything else kept, one Pause(false), and DidPause to a delegate |
| Player.ReleaseMediaResource | content/renderer/media/castanets/castanets_webmediaplayer_impl.cc:207-210 | exactly one Suspend host message; the proxy is untouched |
| Player.InitializeMediaResource | content/renderer/media/castanets/castanets_webmediaplayer_impl.cc:212-216 | exactly one Resume host message; the proxy is untouched |
| Player.RequestPausing | content/renderer/media/castanets/castanets_webmediaplayer_impl.cc:218-234 | in the idle, loading and loaded network states it pauses as Pause does and asks the client to pause; otherwise nothing |
| Player.SetRate | content/renderer/media/castanets/castanets_webmediaplayer_impl.cc:318-320 | exactly one SetRate host message carrying the rate unchanged; the proxy is untouched |
| Player.SetVolume | content/renderer/media/castanets/castanets_webmediaplayer_impl.cc:322-324 | exactly one SetVolume host message carrying the volume unchanged; the stored volume is not updated |
| Player.OnVolumeMultiplierUpdate | content/renderer/media/castanets/castanets_webmediaplayer_impl.cc:374-376 | re-sends the stored volume, whatever the multiplier |
| Player.Seek | content/renderer/media/castanets/castanets_webmediaplayer_impl.cc:236-257 | idle: starts the seek and sends Seek(t); seeking to the same time: cancels the queued seek, sends nothing; to another time: queues it, sends nothing |
| Player.OnSeekComplete | content/renderer/media/castanets/castanets_webmediaplayer_impl.cc:714-722 | ends the seek and zeroes its time, tells the client the time changed, sends nothing, and leaves the queued seek as it was |
| Player.CurrentTime | content/renderer/media/castanets/castanets_webmediaplayer_impl.cc:416-421 | while seeking, the queued target if any, else the target in flight; otherwise the last reported time; each converted from microseconds to seconds |
| Player.Duration | content/renderer/media/castanets/castanets_webmediaplayer_impl.cc:412-414 | the stored duration, converted from microseconds to seconds |
| Player.Seekable | content/renderer/media/castanets/castanets_webmediaplayer_impl.cc:330-336 | empty before metadata; afterwards the single range from 0 to the duration |
| Player.Buffered | content/renderer/media/castanets/castanets_webmediaplayer_impl.cc:326-328 | always one range, from 0 to the buffered end |
| Player.OnSeekForward | content/renderer/media/castanets/castanets_webmediaplayer_impl.cc:360-363 | asks the client to seek to CurrentTime plus the step; nothing is sent |
| Player.OnSeekBackward | content/renderer/media/castanets/castanets_webmediaplayer_impl.cc:365-368 | asks the client to seek to CurrentTime minus the step; nothing is sent |
| Player.OnRequestSeek | content/renderer/media/castanets/castanets_webmediaplayer_impl.cc:370-372 | asks the client to seek to the requested time in seconds |
| Player.OnPauseStateChange | content/renderer/media/castanets/castanets_webmediaplayer_impl.cc:667-686 | a state already held changes nothing; otherwise the state is adopted, the client asked to follow, and the delegate told |
| Player.SuspendAndReleaseResources | content/renderer/media/castanets/castanets_webmediaplayer_impl.cc:423-437 | nothing before a load; otherwise paused and exactly one Suspend; a playing proxy first asks the client to pause and tells a delegate DidPause, a paused one calls nobody |
| Player.Resume | content/renderer/media/castanets/castanets_webmediaplayer_impl.cc:439-442 | exactly one Resume host message; the proxy is untouched |
| Player.OnPlayerSuspend | content/renderer/media/castanets/castanets_webmediaplayer_impl.cc:688-696 | paused afterwards if pre-empted while playing, otherwise unchanged; nothing sent; pre-emption asks the client to pause and tells a delegate DidPause; then a delegate hears PlayerGone; with no delegate and no pre-emption nothing is called |
| Player.OnPlayerResumed | content/renderer/media/castanets/castanets_webmediaplayer_impl.cc:698-708 | re-reports the current pause state to a delegate, and nothing else |
| Player.OnPlayerDestroyed | content/renderer/media/castanets/castanets_webmediaplayer_impl.cc:710-712 | does nothing |
| Player.OnPlay | content/renderer/media/castanets/castanets_webmediaplayer_impl.cc:352-354 | the delegate's play reaches the client as RequestPlay, and nothing else happens |
| Player.OnPause | content/renderer/media/castanets/castanets_webmediaplayer_impl.cc:356-358 | the delegate's pause reaches the client as RequestPause, and nothing else happens |
| Player.OnBecamePersistentVideo | content/renderer/media/castanets/castanets_webmediaplayer_impl.cc:378-380 | passed to the client with its value, and nothing else happens |
| Player.EnteredFullscreen | content/renderer/media/castanets/castanets_webmediaplayer_impl.cc:486-496 | the remote player is told only on entry; a repeated entry does nothing |
| Player.ExitedFullscreen | content/renderer/media/castanets/castanets_webmediaplayer_impl.cc:498-512 | the remote player is told only on exit, then the client repaints; a repeated exit does nothing |
| Player.StartLayerBoundUpdateTimer | content/renderer/media/castanets/castanets_webmediaplayer_impl.cc:574-581 | the timer runs afterwards; starting a running timer changes nothing |
| Player.StopLayerBoundUpdateTimer | content/renderer/media/castanets/castanets_webmediaplayer_impl.cc:583-586 | the timer is stopped afterwards; stopping a stopped timer changes nothing |
| Player.OnDrawableContentRectChanged | content/renderer/media/castanets/castanets_webmediaplayer_impl.cc:527-540 | the full result: drawable, timer stopped, geometry sent, all else kept; a pending play is then started (Start after the geometry, not paused, DidPlay to a delegate), otherwise the pause state is kept and nobody is called |
| Player.UpdateBoundaryRectangle | content/renderer/media/castanets/castanets_webmediaplayer_impl.cc:542-566 | true exactly when there is a video layer and the sample differs from the last geometry, which it then records; otherwise nothing changes |
| Player.OnLayerBoundUpdateTimerFired | content/renderer/media/castanets/castanets_webmediaplayer_impl.cc:588-595 | a changed geometry is recorded and sent, and the timer stops; otherwise nothing happens |
| Player.HasBit | content/renderer/media/castanets/castanets_webmediaplayer_impl.cc:602-603 | a set bit needs a non-zero media value and flag; a flag fully contained in the media value is set |
| Player.OnMediaDataChange | content/renderer/media/castanets/castanets_webmediaplayer_impl.cc:597-614 | tracks decoded from the bits, sizes recorded, timer running; the first video attaches a layer for the client; player type, current time, duration, opacity, last geometry, playback, seeking, loading and identity are kept |
| Player.OnTimeChanged | content/renderer/media/castanets/castanets_webmediaplayer_impl.cc:616-618 | tells the client the time changed, and nothing else |
| Player.OnDurationChanged | content/renderer/media/castanets/castanets_webmediaplayer_impl.cc:620-623 | records the duration and tells the client |
| Player.OnTimeUpdate | content/renderer/media/castanets/castanets_webmediaplayer_impl.cc:658-660 | records the time without telling the client |
| Player.OnBufferUpdate | content/renderer/media/castanets/castanets_webmediaplayer_impl.cc:662-665 | buffered end is the percentage of the duration; progress is flagged; nothing else in the proxy changes |
| Player.DidLoadingProgress | content/renderer/media/castanets/castanets_webmediaplayer_impl.cc:458-464 | reports the progress flag and clears it |
| Player.SetReadyState | content/renderer/media/castanets/castanets_webmediaplayer_impl.cc:470-474 | records the ready state and tells the client |
| Player.SetNetworkState | content/renderer/media/castanets/castanets_webmediaplayer_impl.cc:476-480 | records the network state and tells the client |
| Player.OnNaturalSizeChanged | content/renderer/media/castanets/castanets_webmediaplayer_impl.cc:625-633 | only once something is known about the media; records the size and tells the client |
| Player.OnOpacityChanged | content/renderer/media/castanets/castanets_webmediaplayer_impl.cc:635-642 | only once something is known about the media; records the opacity |
| Player.Handle | content/renderer/media/castanets/castanets_renderer_media_player_manager.cc:112-218 | each of the 13 notifications runs its own proxy operation with its arguments unchanged; registration, id and delegate are kept |
| Player.HandleMediaReport | content/renderer/media/castanets/castanets_renderer_media_player_manager.cc:112-180 | each of the seven media and loading notifications runs its own proxy operation with its arguments unchanged |
| Player.HandlePlayerReport | content/renderer/media/castanets/castanets_renderer_media_player_manager.cc:122-218 | each of the six playback and player-lifetime notifications runs its own proxy operation with its arguments unchanged |
| Player.Destroy | content/renderer/media/castanets/castanets_webmediaplayer_impl.cc:105-120 | one DestroyPlayer; the client loses the layer; a delegate then hears PlayerGone and loses its observer, in that order; without a delegate only the client is called |
| ProxyTrace.Apply | content/renderer/media/castanets/castanets_webmediaplayer_impl.cc:574-595 | no event changes registration, player id, delegate or media bits; a tick of a stopped timer does nothing, and a tick of a running one is the timer handler |
| ProxyTrace.Run | content/renderer/media/castanets/castanets_webmediaplayer_impl.cc:122-127 | a sequence of events never changes the player id the proxy registered with |
| ProxyTrace.CreatedValid | content/renderer/media/castanets/castanets_webmediaplayer_impl.cc:51-103 | a constructed, registered proxy satisfies the invariant |
| ProxyTrace.ApplyKeepsValid | content/renderer/media/castanets/castanets_webmediaplayer_impl.cc:169-186 | every event keeps the invariant: a pending play only while undrawable, volume 1.0, a seek time only while seeking, video only with a layer |
| ProxyTrace.RunKeepsValid | content/renderer/media/castanets/castanets_webmediaplayer_impl.cc:527-540 | every sequence of events keeps the invariant |
| ProxyTrace.MultiplierResendsInitialVolume | content/renderer/media/castanets/castanets_webmediaplayer_impl.cc:374-376 | the multiplier update always sends volume 1.0 |
| ProxyTrace.StatelessLeavesProxy | content/renderer/media/castanets/castanets_webmediaplayer_impl.cc:318-380 | rate, volume, multiplier, frame-shown, delegate and pass-through notification events leave the proxy as it was, with at most one message or call |
| ProxyTrace.ApplySeekEffect | content/renderer/media/castanets/castanets_webmediaplayer_impl.cc:236-257 | apart from a seek completion, only Seek starts a seek, and only a Seek from idle sends one |
| ProxyTrace.OneSeekInFlight | content/renderer/media/castanets/castanets_webmediaplayer_impl.cc:236-257 | until a seek completes, at most one Seek is sent, none while one is in flight, and the proxy is seeking exactly when it was or one was sent |
| ProxyTrace.CurrentTimeAfterSeek | content/renderer/media/castanets/castanets_webmediaplayer_impl.cc:416-421 | right after Seek(t), CurrentTime is t, except exactly when a different seek stayed queued from before, whose time it reports instead |
| ProxyTrace.QueuedSeekOutlivesCompletion | content/renderer/media/castanets/castanets_webmediaplayer_impl.cc:714-722 | Seek(a), Seek(b), completion, Seek(c) sends only a and c, and CurrentTime then reports b, not c |
| ProxyTrace.PlayThenPause | content/renderer/media/castanets/castanets_webmediaplayer_impl.cc:169-205 | Play then Pause ends paused with no pending play; the messages are Start (unless deferred) and Pause(false) |
| ProxyTrace.DeferredPlayStartsWhenDrawable | content/renderer/media/castanets/castanets_webmediaplayer_impl.cc:527-540 | a deferred play sends nothing, then starts, after the geometry, as soon as the video can be drawn |
| ProxyTrace.PauseCancelsDeferredPlay | content/renderer/media/castanets/castanets_webmediaplayer_impl.cc:188-200 | a pause between the deferred play and the video becoming drawable means no Start is ever sent |
| ProxyTrace.PauseStateChangeIdempotent | content/renderer/media/castanets/castanets_webmediaplayer_impl.cc:667-686 | adopting a pause state twice acts once |
| ProxyTrace.HiddenFramePausesPlayback | content/renderer/media/castanets/castanets_webmediaplayer_impl.cc:423-437 | hiding a loaded, playing proxy pauses it, asks the client to pause first, and sends one Suspend |
| ProxyTrace.PreemptionReportedAsPause | content/renderer/media/castanets/castanets_webmediaplayer_impl.cc:688-708 | a pre-empted playing proxy pauses and asks the client to pause; the resumption then reports DidPause |
| ProxyTrace.FullscreenRoundTrip | content/renderer/media/castanets/castanets_webmediaplayer_impl.cc:486-512 | enter, enter, exit tells the remote player once each way and restores the proxy |
| ProxyTrace.TimerSendsFirstChange | content/renderer/media/castanets/castanets_webmediaplayer_impl.cc:588-595 | the running timer sends the first changed geometry and stops, so later ticks send nothing; an unchanged sample keeps it running |
| ProxyTrace.TrackFlagsDecoded | content/renderer/media/castanets/castanets_webmediaplayer_impl.cc:597-603 | with distinct non-zero flags, OnMediaDataChange records exactly which of audio and video the media bits carry |
| ProxyTrace.DecodeFlags | content/renderer/media/castanets/castanets_webmediaplayer_impl.cc:602-603 | the four combinations of two distinct non-zero flags decode to the right pair of track flags |
| ProxyTrace.VideoAttachesLayer | content/renderer/media/castanets/castanets_webmediaplayer_impl.cc:597-614 | the first video track attaches a layer for the client and starts the timer |
| ProxyTrace.SeekStepsSymmetric | content/renderer/media/castanets/castanets_webmediaplayer_impl.cc:360-368 | forward and backward steps ask for times symmetric about CurrentTime |
| ProxyTrace.TimeUpdateReportedUnlessSeeking | content/renderer/media/castanets/castanets_webmediaplayer_impl.cc:658-660 | CurrentTime reports the update unless a seek is in flight; the client is not told |
| ProxyTrace.SeekableAfterMetadata | content/renderer/media/castanets/castanets_webmediaplayer_impl.cc:330-336 | after a duration and a ready state of at least metadata, the whole duration is seekable; before metadata nothing is |
| ProxyTrace.BufferedShareOfDuration | content/renderer/media/castanets/castanets_webmediaplayer_impl.cc:662-665 | the buffered range is that share of the duration: all of it at 100, none at 0 |
| ProxyTrace.PauseRequestFollowsNetwork | content/renderer/media/castanets/castanets_webmediaplayer_impl.cc:218-234 | RequestPause acts exactly in the idle, loading and loaded network states, then pausing and asking the client to pause |
| ProxyTrace.LoadingProgressReportedOnce | content/renderer/media/castanets/castanets_webmediaplayer_impl.cc:458-464 | after a buffer update, loading progress is reported once, then not again |
| ProxyTrace.OnlyBufferUpdateRaisesProgress | content/renderer/media/castanets/castanets_webmediaplayer_impl.cc:662-665 | no event other than a buffer update sets the loading-progress flag |
| ProxyTrace.NoProgressWithoutBufferUpdate | content/renderer/media/castanets/castanets_webmediaplayer_impl.cc:458-464 | once cleared, loading progress stays unreported over any trace with no buffer update |
| ProxyTrace.LoadSendsCleanUrl | content/renderer/media/castanets/castanets_webmediaplayer_impl.cc:129-167 | an immediate URL load sends exactly one Initialize with the cleaned URL; other types send nothing; a deferred load does nothing yet |
| ProxyTrace.DeferredLoadRunsLater | content/renderer/media/castanets/castanets_webmediaplayer_impl.cc:129-146 | a deferred load does nothing now, even for an app:// URL; when the embedder runs it, the result equals the immediate load |
| ProxyTrace.ObserverSpansLifetime | content/renderer/media/castanets/castanets_webmediaplayer_impl.cc:87-117 | whatever happens between construction and destruction, a delegate gets AddObserver first and RemoveObserver last; without one, neither |
| Renderer.NewFrame | content/renderer/media/castanets/castanets_renderer_media_player_manager.cc:26-30 | a new frame is wired, has no proxies and an empty registry, and keeps its routing id |
| Renderer.AttachPlayer | content/renderer/media/castanets/castanets_webmediaplayer_impl.cc:122-127 | a new proxy registers under the id after the process counter and keeps it; the id finds it; other proxies and other ids are unaffected; the frame stays wired |
| Renderer.Commit | content/renderer/media/castanets/castanets_renderer_media_player_manager.cc:220-285 | a proxy's requests leave in order under the frame's routing id and the proxy's own id; the registry is untouched; the frame stays wired |
| Renderer.Drive | content/renderer/media/castanets/castanets_renderer_media_player_manager.cc:220-285 | one event on a live proxy keeps its id and the invariant, and its requests are committed |
| Renderer.Deliver | content/renderer/media/castanets/castanets_renderer_media_player_manager.cc:71-218 | a notification for a registered id updates exactly that proxy; for an unknown id it is handled and changes nothing; other messages are unhandled; the frame stays wired |
| Renderer.DetachPlayer | content/renderer/media/castanets/castanets_webmediaplayer_impl.cc:105-120 | one routed DestroyPlayer is sent, the id finds nothing, other ids are unaffected, the proxy is gone, and no registry entry points at it |
| Renderer.NotificationReachesAttachedPlayer | content/renderer/media/castanets/castanets_renderer_media_player_manager.cc:112-218 | a notification for a just-attached proxy is handled and updates only it |
| Renderer.LateNotificationDropped | content/renderer/media/castanets/castanets_renderer_media_player_manager.cc:112-218 | after a proxy is destroyed, a notification for its id is handled and changes nothing |
| Renderer.OtherMessagesUnhandled | content/renderer/media/castanets/castanets_renderer_media_player_manager.cc:71-93 | any other message kind is reported unhandled and changes nothing |
| Renderer.NewProcess | content/renderer/media/castanets/castanets_renderer_media_player_manager.cc:44 | a process starts with no frames and the counter at the process id shifted into the upper half |
| Renderer.OpenFrame | content/renderer/media/castanets/castanets_renderer_media_player_manager.cc:26-30 | a new frame gets an empty manager of its own; other frames and the counter are kept |
| Renderer.AttachInFrame | content/renderer/media/castanets/castanets_renderer_media_player_manager.cc:39-49 | attaching in one frame takes the next id from the process-wide counter, finds the proxy under it, and leaves other frames unchanged |
| Renderer.FramesShareCounter | content/renderer/media/castanets/castanets_renderer_media_player_manager.cc:39-47 | the first players of two frames of one process get the first and second allocated ids, which differ |

## Left out

- IPC transport: `Send` is modelled as appending to a log. Its return value and delivery failures are not modelled.
- The compositor, video layers and video frames (`CreateVideoHoleFrame`, `FrameReady`, `Paint`, `VisibleRect`) are not modelled. Only whether a video layer exists is kept.
- The layer-tree walk in `UpdateBoundaryRectangle`, with its offsets, scroll and page scale, is not modelled. The rectangle it computes is a parameter (`sample`).
- The conversion between seconds as a double and `TimeDelta` is not modelled. Times are whole microseconds, and seconds are Dafny reals, not doubles.
- Threads, task posting, weak pointers and the real 50 ms timer are not modelled. The timer is a running flag plus explicit tick events.
- The `NOTIMPLEMENTED` and empty stubs are not modelled. These include picture-in-picture, sink id, decode counters, `OnFrameClosed`, `OnIdleTimeout`, `OnMuted` and `SetContentDecryptionModule`.
- `Activate` and `Deactivate` are declared by the manager but never defined, so they have no request.
- `base::GetCurrentProcId` is a parameter (`processId`).
- The counter is a signed `int` in the source. `GetCurrentProcId() << 16` for a process id of 2^15 or more, and the `+ 1` at `INT_MAX`, are undefined behaviour in C++. The model uses `bv32` two's-complement arithmetic for both, which is what common compilers produce but not something the language promises.
- The `MediaType` audio and video bit values are a parameter (`MediaBits`). Their definitions are not part of this model.
- The deferred-load callback's decision is a parameter. When the embedder later runs a deferred load is up to the event sequence (`DeferredLoad`).
- The client's content MIME type is a parameter.
- Logging and the media log are not modelled.
- GURL parsing and canonicalisation of the cleaned URL are not modelled. The model keeps the string.
- The routed-message header and the `routing_id()` lookup are not modelled. The routing id is a field of the manager.
- The manager's destructor check that all players are gone, and `OnDestruct`, are not modelled.
- Player.Create: states only the initial values that later behaviour depends on. The full initial state is in its body.
- ProxyTrace.Permitted: observer events are allowed on a proxy without a delegate, although only a delegate the proxy observes makes them. A DeferredLoad event may also occur without an earlier deferred Load. Both widen the traces, so the trace properties cover more than the source can produce.
- ProxyTrace.Apply: the events exclude OnNaturalSizeChanged and OnOpacityChanged, because no caller inside the modelled code invokes them. They are kept as stand-alone operations with their readiness precondition.
