/**
 * WebMediaPlayerCastanets: the renderer-side proxy of a media player that
 * plays in another process. The proxy keeps a local copy of the playback
 * state, forwards requests through its manager, and updates itself from the
 * remote player's notifications.
 *
 * Every operation is a pure transition from the proxy's state to a Step: the
 * state afterwards, the requests sent through the manager (in order), and the
 * calls made on the blink client and the media delegate (in order).
 */
module Player {
  import opened Wrappers
  import opened MediaTypes
  import opened CleanUrl
  import opened PlayerManager
  import Messages

  /** Calls the proxy makes on its blink::WebMediaPlayerClient. */
  datatype ClientCall =
    | ReadyStateChanged
    | NetworkStateChanged
    | RequestPause
    | RequestPlay
    | RequestSeek(seconds: real)
    | DurationChanged
    | TimeChanged
    | Repaint
    | SizeChanged
    | BecamePersistentVideo(value: bool)
    | SetCcLayer(attached: bool)

  /**
   * Calls the proxy makes on its media::WebMediaPlayerDelegate. DidPlay carries
   * the duration from which the delegate's content type is derived; the proxy
   * registers as the delegate's observer when constructed and leaves when
   * destroyed.
   */
  datatype DelegateCall =
    | DidPlay(hasVideo: bool, hasAudio: bool, duration: Micros)
    | DidPause
    | PlayerGone
    | AddObserver
    | RemoveObserver

  /** A call on the client, or on the delegate when the proxy has one. */
  datatype Callback = Client(clientCall: ClientCall) | Delegate(delegateCall: DelegateCall)

  /** Playback flags. */
  datatype Playback = Playback(
    isPaused: bool,
    pendingPlay: bool,
    isDrawReady: bool,
    isFullscreen: bool,
    volume: real)

  /** The seek in flight, and the one queued behind it. */
  datatype Seeking = Seeking(
    isSeeking: bool,
    seekTime: Micros,
    pendingSeek: bool,
    pendingSeekTime: Micros)

  /** What the remote player has reported about the media. */
  datatype Media = Media(
    playerType: PlayerType,
    audio: bool,
    video: bool,
    videoWidth: int,
    videoHeight: int,
    naturalSize: Size,
    currentTime: Micros,
    duration: Micros,
    isOpaque: bool,
    videoLayer: bool)

  /** Loading progress. */
  datatype Loading = Loading(
    networkState: NetworkState,
    readyState: ReadyState,
    bufferedEnd: real,
    didLoadingProgress: bool)

  /** The geometry last sent, and whether the sampling timer runs. */
  datatype Geometry = Geometry(lastComputedRect: RectF, timerRunning: bool)

  /** The proxy's state: the fields of WebMediaPlayerCastanets that carry behaviour. */
  datatype Proxy = Proxy(
    // Set by SetMediaPlayerManager; the source leaves them uninitialised before.
    registered: bool,
    playerId: Messages.PlayerId,
    // Whether a delegate was supplied at construction.
    hasDelegate: bool,
    // The MediaType bit values the remote player uses.
    bits: MediaBits,
    playback: Playback,
    seeking: Seeking,
    media: Media,
    loading: Loading,
    geometry: Geometry)
  {
    /** SetMediaPlayerManager has run, so the manager and the player id are set. */
    predicate Ready() {
      registered
    }
  }

  /** The parts of a registered proxy that no operation changes. */
  predicate SameIdentity(p: Proxy, q: Proxy) {
    q.registered == p.registered && q.playerId == p.playerId && q.hasDelegate == p.hasDelegate && q.bits == p.bits
  }

  /** The outcome of one operation. */
  datatype Step = Step(p: Proxy, sent: seq<Request>, calls: seq<Callback>)

  /** The delegate call, made only when there is a delegate. */
  function ToDelegate(p: Proxy, call: DelegateCall): (r: seq<Callback>)
    ensures |r| <= 1 && (r != [] <==> p.hasDelegate)
    ensures forall c :: c in r ==> c == Delegate(call)
  {
    if p.hasDelegate then [Delegate(call)] else []
  }

  /** The DidPlay report, with the proxy's current track and duration facts. */
  function DidPlayOf(p: Proxy): DelegateCall {
    DidPlay(p.media.video, p.media.audio, p.media.duration)
  }

  const ZeroRect := RectF(0.0, 0.0, 0.0, 0.0)

  /** The constructor: everything at rest, no manager yet. */
  function Create(hasDelegate: bool, bits: MediaBits): (p: Proxy)
    ensures !p.Ready() && p.playback.isPaused && !p.playback.pendingPlay && !p.playback.isDrawReady
    ensures !p.seeking.isSeeking && !p.seeking.pendingSeek && p.seeking.seekTime == 0
    ensures p.media.playerType == TypeNone && !p.geometry.timerRunning
    ensures p.loading.networkState == NetworkEmpty && p.loading.readyState == HaveNothing
    ensures p.playback.volume == 1.0
  {
    Proxy(false, Messages.PlayerId(0), hasDelegate, bits,
          Playback(true, false, false, false, 1.0),
          Seeking(false, 0, false, 0),
          Media(TypeNone, false, false, 0, 0, Size(0, 0), 0, 0, false, false),
          Loading(NetworkEmpty, HaveNothing, 0.0, false),
          Geometry(ZeroRect, false))
  }

  /**
   * The constructor with the calls it makes: a proxy with a delegate
   * registers as its observer, and one without calls nobody.
   */
  function Construct(hasDelegate: bool, bits: MediaBits): (r: (Proxy, seq<Callback>))
    ensures r.0 == Create(hasDelegate, bits)
    ensures hasDelegate ==> r.1 == [Delegate(AddObserver)]
    ensures !hasDelegate ==> r.1 == []
  {
    var p := Create(hasDelegate, bits);
    (p, ToDelegate(p, AddObserver))
  }

  /** SetMediaPlayerManager, given the id the manager's registration returned. */
  function SetMediaPlayerManager(p: Proxy, id: Messages.PlayerId): (r: Proxy)
    ensures r.Ready() && r.playerId == id
    ensures r.(registered := p.registered, playerId := p.playerId) == p
  {
    p.(registered := true, playerId := id)
  }

  // ---------------------------------------------------------------------------
  // Loading

  /** blink::WebMediaPlayer::LoadTiming. */
  datatype LoadTiming = Immediate | Deferred

  /**
   * DoLoad: only URL loads are supported; they fix the player type and
   * initialise the remote player with the cleaned URL. Other load types are
   * refused and change nothing.
   */
  function DoLoad(p: Proxy, loadType: LoadType, url: string, mimeType: string): (r: Step)
    requires p.Ready()
    requires loadType == LoadTypeUrl ==> !StartsWith(url, AppScheme)
    ensures loadType != LoadTypeUrl ==> r == Step(p, [], [])
    ensures loadType == LoadTypeUrl ==>
              r.p == p.(media := p.media.(playerType := TypeUrlWithVideoHole)) && r.calls == []
              && r.sent == [Initialize(TypeUrlWithVideoHole, GetCleanURL(url), mimeType, 0)]
  {
    if loadType != LoadTypeUrl then Step(p, [], [])
    else
      var q := p.(media := p.media.(playerType := TypeUrlWithVideoHole));
      Step(q, [Initialize(q.media.playerType, GetCleanURL(url), mimeType, 0)], [])
  }

  /**
   * Load: runs DoLoad now, or, when the embedder defers the load, nothing now.
   * The embedder runs the deferred DoLoad later, as a call of its own.
   */
  function Load(p: Proxy, loadType: LoadType, url: string, mimeType: string, deferred: bool): (r: (Step, LoadTiming))
    requires p.Ready()
    requires !deferred && loadType == LoadTypeUrl ==> !StartsWith(url, AppScheme)
    ensures r.1 == Deferred <==> deferred
    ensures deferred ==> r.0 == Step(p, [], [])
    ensures !deferred ==> r.0 == DoLoad(p, loadType, url, mimeType)
  {
    if deferred then (Step(p, [], []), Deferred)
    else (DoLoad(p, loadType, url, mimeType), Immediate)
  }

  // ---------------------------------------------------------------------------
  // Playback

  /** Whether Play has to wait: there is video, and it cannot be drawn yet. */
  predicate MustDeferPlay(p: Proxy) {
    p.media.video && !p.playback.isDrawReady
  }

  /**
   * Play: a video that cannot be drawn yet only remembers the request;
   * otherwise one Start is sent and the proxy counts itself as playing.
   */
  function Play(p: Proxy): (r: Step)
    requires p.Ready()
    ensures MustDeferPlay(p) ==> r == Step(p.(playback := p.playback.(pendingPlay := true)), [], [])
    ensures !MustDeferPlay(p) ==>
              r.p == p.(playback := p.playback.(pendingPlay := false, isPaused := false))
              && r.sent == [Start] && r.calls == ToDelegate(p, DidPlayOf(p))
  {
    if MustDeferPlay(p) then Step(p.(playback := p.playback.(pendingPlay := true)), [], [])
    else
      var q := p.(playback := p.playback.(pendingPlay := false, isPaused := false));
      Step(q, [Start], ToDelegate(q, DidPlayOf(q)))
  }

  /** PauseInternal: forgets a deferred play, sends one Pause and counts itself paused. */
  function PauseInternal(p: Proxy, isMediaRelatedAction: bool): (r: Step)
    requires p.Ready()
    ensures r.p == p.(playback := p.playback.(pendingPlay := false, isPaused := true))
    ensures r.sent == [PausePlayer(isMediaRelatedAction)] && r.calls == ToDelegate(p, DidPause)
  {
    Step(p.(playback := p.playback.(pendingPlay := false, isPaused := true)),
         [PausePlayer(isMediaRelatedAction)], ToDelegate(p, DidPause))
  }

  /** Pause: always reports the pause as not media related. */
  function Pause(p: Proxy): (r: Step)
    requires p.Ready()
    ensures r.p == p.(playback := p.playback.(pendingPlay := false, isPaused := true))
    ensures r.sent == [PausePlayer(false)] && r.calls == ToDelegate(p, DidPause)
  {
    PauseInternal(p, false)
  }

  /** ReleaseMediaResource: asks the remote player to suspend. */
  function ReleaseMediaResource(p: Proxy): (r: Step)
    requires p.Ready()
    ensures r.p == p && r.calls == [] && |r.sent| == 1 && ToHostMsg(r.sent[0]) == Messages.Suspend
  {
    Step(p, [SuspendPlayer], [])
  }

  /** InitializeMediaResource: asks the remote player to resume. */
  function InitializeMediaResource(p: Proxy): (r: Step)
    requires p.Ready()
    ensures r.p == p && r.calls == [] && |r.sent| == 1 && ToHostMsg(r.sent[0]) == Messages.Resume
  {
    Step(p, [ResumePlayer], [])
  }

  /** The network states in which the player is "in good shape". */
  predicate NetworkHealthy(s: NetworkState) {
    s == NetworkIdle || s == NetworkLoading || s == NetworkLoaded
  }

  /**
   * RequestPause: when the network state is healthy, pauses and asks the
   * client to pause too; otherwise does nothing.
   */
  function RequestPausing(p: Proxy): (r: Step)
    requires p.Ready()
    ensures !NetworkHealthy(p.loading.networkState) ==> r == Step(p, [], [])
    ensures NetworkHealthy(p.loading.networkState) ==>
              r.p == Pause(p).p && r.sent == [PausePlayer(false)]
              && r.calls == Pause(p).calls + [Client(RequestPause)]
  {
    if NetworkHealthy(p.loading.networkState) then
      var s := PauseInternal(p, false);
      Step(s.p, s.sent, s.calls + [Client(RequestPause)])
    else Step(p, [], [])
  }

  /** SetRate: forwarded as is. */
  function SetRate(p: Proxy, rate: real): (r: Step)
    requires p.Ready()
    ensures r.p == p && r.calls == [] && |r.sent| == 1 && ToHostMsg(r.sent[0]) == Messages.SetRate(rate)
  {
    Step(p, [ChangeRate(rate)], [])
  }

  /** SetVolume: forwarded as is; the proxy's own volume field is not updated. */
  function SetVolume(p: Proxy, volume: real): (r: Step)
    requires p.Ready()
    ensures r.p == p && r.calls == [] && |r.sent| == 1 && ToHostMsg(r.sent[0]) == Messages.SetVolume(volume)
  {
    Step(p, [ChangeVolume(volume)], [])
  }

  /** OnVolumeMultiplierUpdate: re-sends the stored volume, ignoring the multiplier. */
  function OnVolumeMultiplierUpdate(p: Proxy, multiplier: real): (r: Step)
    requires p.Ready()
    ensures r.p == p && r.calls == [] && |r.sent| == 1
    ensures ToHostMsg(r.sent[0]) == Messages.SetVolume(p.playback.volume)
  {
    SetVolume(p, p.playback.volume)
  }

  // ---------------------------------------------------------------------------
  // Seeking

  /**
   * Seek: starts a seek when none is in flight. While one is, a request for
   * the same time cancels any queued seek and a different time is queued;
   * neither sends anything.
   */
  function Seek(p: Proxy, time: Micros): (r: Step)
    requires p.Ready()
    ensures !p.seeking.isSeeking ==>
              r == Step(p.(seeking := p.seeking.(isSeeking := true, seekTime := time)), [SeekTo(time)], [])
    ensures p.seeking.isSeeking && time == p.seeking.seekTime ==>
              r == Step(p.(seeking := p.seeking.(pendingSeek := false)), [], [])
    ensures p.seeking.isSeeking && time != p.seeking.seekTime ==>
              r == Step(p.(seeking := p.seeking.(pendingSeek := true, pendingSeekTime := time)), [], [])
  {
    if p.seeking.isSeeking then
      if time == p.seeking.seekTime then Step(p.(seeking := p.seeking.(pendingSeek := false)), [], [])
      else Step(p.(seeking := p.seeking.(pendingSeek := true, pendingSeekTime := time)), [], [])
    else
      var q := p.(seeking := p.seeking.(isSeeking := true, seekTime := time));
      Step(q, [SeekTo(q.seeking.seekTime)], [])
  }

  /**
   * OnSeekComplete: ends the seek in flight and tells the client the time
   * changed. A queued seek is neither sent nor forgotten.
   */
  function OnSeekComplete(p: Proxy): (r: Step)
    requires p.Ready()
    ensures !r.p.seeking.isSeeking && r.p.seeking.seekTime == 0 && r.sent == []
    ensures r.p.seeking.pendingSeek == p.seeking.pendingSeek
    ensures r.p.seeking.pendingSeekTime == p.seeking.pendingSeekTime
    ensures r.p.(seeking := p.seeking) == p && r.calls == [Client(TimeChanged)]
  {
    Step(p.(seeking := p.seeking.(isSeeking := false, seekTime := 0)), [], [Client(TimeChanged)])
  }

  /**
   * CurrentTime, in seconds: while seeking, the queued target if there is one
   * and else the target in flight; otherwise the last reported time.
   */
  function CurrentTime(p: Proxy): (r: real)
    ensures p.seeking.isSeeking && p.seeking.pendingSeek ==> r * 1000000.0 == p.seeking.pendingSeekTime as real
    ensures p.seeking.isSeeking && !p.seeking.pendingSeek ==> r * 1000000.0 == p.seeking.seekTime as real
    ensures !p.seeking.isSeeking ==> r * 1000000.0 == p.media.currentTime as real
  {
    if p.seeking.isSeeking then
      if p.seeking.pendingSeek then Seconds(p.seeking.pendingSeekTime) else Seconds(p.seeking.seekTime)
    else Seconds(p.media.currentTime)
  }

  /** Duration, in seconds. */
  function Duration(p: Proxy): (r: real)
    ensures r * 1000000.0 == p.media.duration as real
  {
    Seconds(p.media.duration)
  }

  /** Seekable: nothing before metadata, then the whole duration. */
  function Seekable(p: Proxy): (r: seq<TimeRange>)
    ensures r == [] <==> p.loading.readyState.Rank() < HaveMetadata.Rank()
    ensures r != [] ==> r == [TimeRange(0.0, Duration(p))]
  {
    if p.loading.readyState.Rank() < HaveMetadata.Rank() then []
    else [TimeRange(0.0, Duration(p))]
  }

  /** Buffered: always the single range that OnBufferUpdate stretches. */
  function Buffered(p: Proxy): (r: seq<TimeRange>)
    ensures |r| == 1 && r[0].start == 0.0 && r[0].end == p.loading.bufferedEnd
  {
    [TimeRange(0.0, p.loading.bufferedEnd)]
  }

  /** OnSeekForward: asks the client to seek ahead of the current time. */
  function OnSeekForward(p: Proxy, seconds: real): (r: Step)
    requires p.Ready() && seconds >= 0.0
    ensures r == Step(p, [], [Client(RequestSeek(CurrentTime(p) + seconds))])
  {
    Step(p, [], [Client(RequestSeek(CurrentTime(p) + seconds))])
  }

  /** OnSeekBackward: asks the client to seek behind the current time. */
  function OnSeekBackward(p: Proxy, seconds: real): (r: Step)
    requires p.Ready() && seconds >= 0.0
    ensures r == Step(p, [], [Client(RequestSeek(CurrentTime(p) - seconds))])
  {
    Step(p, [], [Client(RequestSeek(CurrentTime(p) - seconds))])
  }

  /** OnRequestSeek: the remote player asks the client to seek. */
  function OnRequestSeek(p: Proxy, time: Micros): (r: Step)
    requires p.Ready()
    ensures r == Step(p, [], [Client(RequestSeek(Seconds(time)))])
  {
    Step(p, [], [Client(RequestSeek(Seconds(time)))])
  }

  // ---------------------------------------------------------------------------
  // Pause state, suspension and the delegate

  /**
   * OnPauseStateChange: adopts the remote player's pause state and asks the
   * client to follow; a state that is already held changes nothing.
   */
  function OnPauseStateChange(p: Proxy, paused: bool): (r: Step)
    requires p.Ready()
    ensures p.playback.isPaused == paused ==> r == Step(p, [], [])
    ensures p.playback.isPaused != paused ==>
              r.p == p.(playback := p.playback.(isPaused := paused)) && r.sent == []
              && r.calls == [Client(if paused then RequestPause else RequestPlay)]
                            + ToDelegate(p, if paused then DidPause else DidPlayOf(p))
  {
    if p.playback.isPaused == paused then Step(p, [], [])
    else
      var q := p.(playback := p.playback.(isPaused := paused));
      var client := if paused then Client(RequestPause) else Client(RequestPlay);
      Step(q, [], [client] + ToDelegate(q, if paused then DidPause else DidPlayOf(q)))
  }

  /**
   * SuspendAndReleaseResources (and OnFrameHidden): nothing before a load has
   * chosen a player type; otherwise the proxy becomes paused and one Suspend
   * is sent.
   */
  function SuspendAndReleaseResources(p: Proxy): (r: Step)
    requires p.Ready()
    ensures p.media.playerType == TypeNone ==> r == Step(p, [], [])
    ensures p.media.playerType != TypeNone ==>
              r.p == p.(playback := p.playback.(isPaused := true)) && r.sent == [SuspendPlayer]
    ensures p.media.playerType != TypeNone && p.playback.isPaused ==> r.calls == []
    ensures p.media.playerType != TypeNone && !p.playback.isPaused ==>
              r.calls == [Client(RequestPause)] + ToDelegate(p, DidPause)
  {
    if p.media.playerType == TypeNone then Step(p, [], [])
    else if p.playback.isPaused then ReleaseMediaResource(p)
    else
      var s := OnPauseStateChange(p, true);
      Step(s.p, [SuspendPlayer], s.calls)
  }

  /** Resume (and OnFrameShown): asks the remote player to resume. */
  function Resume(p: Proxy): (r: Step)
    requires p.Ready()
    ensures r.p == p && r.calls == [] && |r.sent| == 1 && ToHostMsg(r.sent[0]) == Messages.Resume
  {
    InitializeMediaResource(p)
  }

  /**
   * OnPlayerSuspend: a pre-empting suspension of a playing player pauses it;
   * the delegate is told the player is gone in every case.
   */
  function OnPlayerSuspend(p: Proxy, isPreempted: bool): (r: Step)
    requires p.Ready()
    ensures r.p == p.(playback := p.playback.(isPaused := p.playback.isPaused || isPreempted))
    ensures r.sent == []
    ensures !p.playback.isPaused && isPreempted ==>
              r.calls == [Client(RequestPause)] + ToDelegate(p, DidPause) + ToDelegate(p, PlayerGone)
    ensures !(!p.playback.isPaused && isPreempted) ==> r.calls == ToDelegate(p, PlayerGone)
  {
    if !p.playback.isPaused && isPreempted then
      var s := OnPauseStateChange(p, true);
      Step(s.p, [], s.calls + ToDelegate(p, PlayerGone))
    else Step(p, [], ToDelegate(p, PlayerGone))
  }

  /** OnPlayerResumed: re-reports the current pause state to the delegate. */
  function OnPlayerResumed(p: Proxy, isPreempted: bool): (r: Step)
    requires p.Ready()
    ensures r.p == p && r.sent == []
    ensures r.calls == ToDelegate(p, if p.playback.isPaused then DidPause else DidPlayOf(p))
  {
    Step(p, [], ToDelegate(p, if p.playback.isPaused then DidPause else DidPlayOf(p)))
  }

  /** OnPlayerDestroyed: not implemented by the proxy; nothing happens. */
  function OnPlayerDestroyed(p: Proxy): (r: Step)
    requires p.Ready()
    ensures r == Step(p, [], [])
  {
    Step(p, [], [])
  }

  /** OnPlay and OnPause from the delegate: passed on to the client. */
  function OnPlay(p: Proxy): (r: Step)
    requires p.Ready()
    ensures r == Step(p, [], [Client(RequestPlay)])
  {
    Step(p, [], [Client(RequestPlay)])
  }

  function OnPause(p: Proxy): (r: Step)
    requires p.Ready()
    ensures r == Step(p, [], [Client(RequestPause)])
  {
    Step(p, [], [Client(RequestPause)])
  }

  /** OnBecamePersistentVideo: passed on to the client. */
  function OnBecamePersistentVideo(p: Proxy, value: bool): (r: Step)
    requires p.Ready()
    ensures r == Step(p, [], [Client(BecamePersistentVideo(value))])
  {
    Step(p, [], [Client(BecamePersistentVideo(value))])
  }

  // ---------------------------------------------------------------------------
  // Fullscreen

  /** EnteredFullscreen: tells the remote player once per entry. */
  function EnteredFullscreen(p: Proxy): (r: Step)
    requires p.Ready()
    ensures p.playback.isFullscreen ==> r == Step(p, [], [])
    ensures !p.playback.isFullscreen ==>
              r == Step(p.(playback := p.playback.(isFullscreen := true)), [NotifyEnteredFullscreen], [])
  {
    if p.playback.isFullscreen then Step(p, [], [])
    else Step(p.(playback := p.playback.(isFullscreen := true)), [NotifyEnteredFullscreen], [])
  }

  /** ExitedFullscreen: tells the remote player once per exit, then repaints. */
  function ExitedFullscreen(p: Proxy): (r: Step)
    requires p.Ready()
    ensures !p.playback.isFullscreen ==> r == Step(p, [], [])
    ensures p.playback.isFullscreen ==>
              r == Step(p.(playback := p.playback.(isFullscreen := false)), [NotifyExitedFullscreen], [Client(Repaint)])
  {
    if !p.playback.isFullscreen then Step(p, [], [])
    else Step(p.(playback := p.playback.(isFullscreen := false)), [NotifyExitedFullscreen], [Client(Repaint)])
  }

  // ---------------------------------------------------------------------------
  // Geometry

  /** StartLayerBoundUpdateTimer: starting a running timer changes nothing. */
  function StartLayerBoundUpdateTimer(p: Proxy): (r: Proxy)
    ensures r.geometry.timerRunning && (p.geometry.timerRunning ==> r == p)
    ensures r.(geometry := p.geometry) == p && r.geometry.lastComputedRect == p.geometry.lastComputedRect
  {
    if p.geometry.timerRunning then p else p.(geometry := p.geometry.(timerRunning := true))
  }

  /** StopLayerBoundUpdateTimer. */
  function StopLayerBoundUpdateTimer(p: Proxy): (r: Proxy)
    ensures !r.geometry.timerRunning && (!p.geometry.timerRunning ==> r == p)
    ensures r.(geometry := p.geometry) == p && r.geometry.lastComputedRect == p.geometry.lastComputedRect
  {
    if p.geometry.timerRunning then p.(geometry := p.geometry.(timerRunning := false)) else p
  }

  /**
   * OnDrawableContentRectChanged: the video can now be drawn. The timer stops,
   * the remote player gets the new geometry, and a deferred play is started.
   */
  function OnDrawableContentRectChanged(p: Proxy, rect: Rect, isVideo: bool): (r: Step)
    requires p.Ready()
    ensures r.p.playback.isDrawReady && !r.p.geometry.timerRunning && !r.p.playback.pendingPlay
    ensures p.playback.pendingPlay ==>
              && r.sent == [SetMediaGeometry(ToRectF(rect)), Start]
              && r.p == p.(playback := p.playback.(isDrawReady := true, pendingPlay := false, isPaused := false),
                           geometry := p.geometry.(timerRunning := false))
              && r.calls == ToDelegate(p, DidPlayOf(p))
    ensures !p.playback.pendingPlay ==>
              && r.sent == [SetMediaGeometry(ToRectF(rect))] && r.calls == []
              && r.p == p.(playback := p.playback.(isDrawReady := true),
                           geometry := p.geometry.(timerRunning := false))
  {
    var q := StopLayerBoundUpdateTimer(p.(playback := p.playback.(isDrawReady := true)));
    var geometry := SetMediaGeometry(ToRectF(rect));
    if q.playback.pendingPlay then
      var s := Play(q);
      Step(s.p, [geometry] + s.sent, s.calls)
    else Step(q, [geometry], [])
  }

  /**
   * UpdateBoundaryRectangle, given the rectangle the layer walk computes:
   * false without a video layer or when the geometry is unchanged; otherwise
   * the new geometry is remembered.
   */
  function UpdateBoundaryRectangle(p: Proxy, sample: RectF): (r: (Proxy, bool))
    ensures r.1 <==> p.media.videoLayer && sample != p.geometry.lastComputedRect
    ensures r.1 ==> r.0 == p.(geometry := p.geometry.(lastComputedRect := sample))
    ensures !r.1 ==> r.0 == p
  {
    if !p.media.videoLayer then (p, false)
    else if p.geometry.lastComputedRect == sample then (p, false)
    else (p.(geometry := p.geometry.(lastComputedRect := sample)), true)
  }

  /**
   * OnLayerBoundUpdateTimerFired: a changed geometry is sent and the timer
   * stops after that first change; otherwise nothing happens and the timer
   * keeps running.
   */
  function OnLayerBoundUpdateTimerFired(p: Proxy, sample: RectF): (r: Step)
    requires p.Ready()
    ensures p.media.videoLayer && sample != p.geometry.lastComputedRect ==>
              r == Step(p.(geometry := Geometry(sample, false)), [SetMediaGeometry(sample)], [])
    ensures !(p.media.videoLayer && sample != p.geometry.lastComputedRect) ==> r == Step(p, [], [])
  {
    var u := UpdateBoundaryRectangle(p, sample);
    if u.1 then
      Step(StopLayerBoundUpdateTimer(u.0), [SetMediaGeometry(u.0.geometry.lastComputedRect)], [])
    else Step(p, [], [])
  }

  // ---------------------------------------------------------------------------
  // Notifications about the media

  /** Whether `media` has the bit `flag` set: `media & flag ? true : false`. */
  predicate HasBit(media: bv32, flag: bv32): (r: bool)
    ensures r ==> media != 0 && flag != 0
    ensures flag != 0 && media & flag == flag ==> r
  {
    media & flag != 0
  }

  /**
   * OnMediaDataChange: records the video size and which tracks are present,
   * attaches a video layer the first time there is video, and starts the
   * geometry timer.
   */
  function OnMediaDataChange(p: Proxy, width: int, height: int, media: bv32): (r: Step)
    requires p.Ready()
    ensures r.p.media.audio == HasBit(media, p.bits.audio) && r.p.media.video == HasBit(media, p.bits.video)
    ensures r.p.media.naturalSize == Size(width, height)
    ensures r.p.media.videoWidth == width && r.p.media.videoHeight == height
    ensures r.p.geometry.timerRunning && r.sent == []
    ensures r.p.media.videoLayer == (p.media.videoLayer || r.p.media.video)
    ensures r.calls == (if r.p.media.video && !p.media.videoLayer then [Client(SetCcLayer(true))] else [])
    ensures r.p.playback == p.playback && r.p.seeking == p.seeking && r.p.loading == p.loading
    ensures r.p.media.playerType == p.media.playerType && r.p.media.currentTime == p.media.currentTime
    ensures r.p.media.duration == p.media.duration && r.p.media.isOpaque == p.media.isOpaque
    ensures r.p.geometry.lastComputedRect == p.geometry.lastComputedRect && SameIdentity(p, r.p)
  {
    var m := p.media.(videoHeight := height, videoWidth := width,
                      audio := HasBit(media, p.bits.audio), video := HasBit(media, p.bits.video),
                      naturalSize := Size(width, height));
    if m.video && !m.videoLayer then
      Step(StartLayerBoundUpdateTimer(p.(media := m.(videoLayer := true))), [], [Client(SetCcLayer(true))])
    else Step(StartLayerBoundUpdateTimer(p.(media := m)), [], [])
  }

  /** OnTimeChanged: passed on to the client. */
  function OnTimeChanged(p: Proxy): (r: Step)
    requires p.Ready()
    ensures r == Step(p, [], [Client(TimeChanged)])
  {
    Step(p, [], [Client(TimeChanged)])
  }

  /** OnDurationChanged: records the duration and tells the client. */
  function OnDurationChanged(p: Proxy, duration: Micros): (r: Step)
    requires p.Ready()
    ensures r == Step(p.(media := p.media.(duration := duration)), [], [Client(DurationChanged)])
  {
    Step(p.(media := p.media.(duration := duration)), [], [Client(DurationChanged)])
  }

  /** OnTimeUpdate: records the time, without telling the client. */
  function OnTimeUpdate(p: Proxy, time: Micros): (r: Step)
    requires p.Ready()
    ensures r == Step(p.(media := p.media.(currentTime := time)), [], [])
  {
    Step(p.(media := p.media.(currentTime := time)), [], [])
  }

  /** OnBufferUpdate: stretches the buffered range to the given share of the duration. */
  function OnBufferUpdate(p: Proxy, percentage: int): (r: Step)
    requires p.Ready()
    ensures r.p.loading.bufferedEnd == Duration(p) * percentage as real / 100.0
    ensures r.p.loading.didLoadingProgress
    ensures r.p.(loading := p.loading) == p && r.p.loading.readyState == p.loading.readyState
    ensures r.p.loading.networkState == p.loading.networkState
    ensures r.sent == [] && r.calls == []
  {
    var end := Duration(p) * percentage as real / 100.0;
    Step(p.(loading := p.loading.(bufferedEnd := end, didLoadingProgress := true)), [], [])
  }

  /** DidLoadingProgress: reports, once, that progress happened since it last asked. */
  function DidLoadingProgress(p: Proxy): (r: (Proxy, bool))
    ensures r.1 == p.loading.didLoadingProgress && !r.0.loading.didLoadingProgress
    ensures r.0 == p.(loading := p.loading.(didLoadingProgress := false))
  {
    if p.loading.didLoadingProgress then (p.(loading := p.loading.(didLoadingProgress := false)), true)
    else (p, false)
  }

  /** SetReadyState: records the state and tells the client. */
  function SetReadyState(p: Proxy, state: ReadyState): (r: Step)
    requires p.Ready()
    ensures r == Step(p.(loading := p.loading.(readyState := state)), [], [Client(ReadyStateChanged)])
  {
    Step(p.(loading := p.loading.(readyState := state)), [], [Client(ReadyStateChanged)])
  }

  /** SetNetworkState: records the state and tells the client. */
  function SetNetworkState(p: Proxy, state: NetworkState): (r: Step)
    requires p.Ready()
    ensures r == Step(p.(loading := p.loading.(networkState := state)), [], [Client(NetworkStateChanged)])
  {
    Step(p.(loading := p.loading.(networkState := state)), [], [Client(NetworkStateChanged)])
  }

  /** OnNaturalSizeChanged: only valid once something is known about the media. */
  function OnNaturalSizeChanged(p: Proxy, size: Size): (r: Step)
    requires p.Ready() && p.loading.readyState != HaveNothing
    ensures r == Step(p.(media := p.media.(naturalSize := size)), [], [Client(SizeChanged)])
  {
    Step(p.(media := p.media.(naturalSize := size)), [], [Client(SizeChanged)])
  }

  /** OnOpacityChanged: only valid once something is known about the media. */
  function OnOpacityChanged(p: Proxy, isOpaque: bool): (r: Step)
    requires p.Ready() && p.loading.readyState != HaveNothing
    ensures r == Step(p.(media := p.media.(isOpaque := isOpaque)), [], [])
  {
    Step(p.(media := p.media.(isOpaque := isOpaque)), [], [])
  }

  /** The notifications that report on the media and its loading. */
  predicate ReportsMedia(note: Messages.Notification) {
    || note.MediaDataChanged? || note.DurationChanged? || note.TimeUpdate? || note.BufferUpdate?
    || note.ReadyStateChange? || note.NetworkStateChange? || note.TimeChanged?
  }

  /** The forwarders of the media reports. */
  function HandleMediaReport(p: Proxy, note: Messages.Notification): (r: Step)
    requires p.Ready() && ReportsMedia(note)
    ensures SameIdentity(p, r.p)
    ensures note.MediaDataChanged? ==> r == OnMediaDataChange(p, note.width, note.height, note.media)
    ensures note.DurationChanged? ==> r == OnDurationChanged(p, note.duration)
    ensures note.TimeUpdate? ==> r == OnTimeUpdate(p, note.time)
    ensures note.BufferUpdate? ==> r == OnBufferUpdate(p, note.percentage)
    ensures note.ReadyStateChange? ==> r == SetReadyState(p, note.readyState)
    ensures note.NetworkStateChange? ==> r == SetNetworkState(p, note.networkState)
    ensures note.TimeChanged? ==> r == OnTimeChanged(p)
  {
    match note
    case MediaDataChanged(w, h, media) => OnMediaDataChange(p, w, h, media)
    case DurationChanged(d) => OnDurationChanged(p, d)
    case TimeUpdate(t) => OnTimeUpdate(p, t)
    case BufferUpdate(pct) => OnBufferUpdate(p, pct)
    case ReadyStateChange(s) => SetReadyState(p, s)
    case NetworkStateChange(s) => SetNetworkState(p, s)
    case TimeChanged => OnTimeChanged(p)
  }

  /** The forwarders of the playback and player-lifetime reports. */
  function HandlePlayerReport(p: Proxy, note: Messages.Notification): (r: Step)
    requires p.Ready() && !ReportsMedia(note)
    ensures SameIdentity(p, r.p)
    ensures note.PauseStateChanged? ==> r == OnPauseStateChange(p, note.paused)
    ensures note.SeekComplete? ==> r == OnSeekComplete(p)
    ensures note.SeekRequest? ==> r == OnRequestSeek(p, note.time)
    ensures note.PlayerSuspend? ==> r == OnPlayerSuspend(p, note.isPreempted)
    ensures note.PlayerResumed? ==> r == OnPlayerResumed(p, note.isPreempted)
    ensures note.PlayerDestroyed? ==> r == OnPlayerDestroyed(p)
  {
    match note
    case PauseStateChanged(paused) => OnPauseStateChange(p, paused)
    case SeekComplete => OnSeekComplete(p)
    case SeekRequest(t) => OnRequestSeek(p, t)
    case PlayerSuspend(pre) => OnPlayerSuspend(p, pre)
    case PlayerResumed(pre) => OnPlayerResumed(p, pre)
    case PlayerDestroyed => OnPlayerDestroyed(p)
  }

  /**
   * The manager's forwarders: which proxy operation each notification from
   * the remote player runs, with its arguments unchanged.
   */
  function Handle(p: Proxy, note: Messages.Notification): (r: Step)
    requires p.Ready()
    ensures SameIdentity(p, r.p)
    ensures note.MediaDataChanged? ==> r == OnMediaDataChange(p, note.width, note.height, note.media)
    ensures note.DurationChanged? ==> r == OnDurationChanged(p, note.duration)
    ensures note.TimeUpdate? ==> r == OnTimeUpdate(p, note.time)
    ensures note.BufferUpdate? ==> r == OnBufferUpdate(p, note.percentage)
    ensures note.ReadyStateChange? ==> r == SetReadyState(p, note.readyState)
    ensures note.NetworkStateChange? ==> r == SetNetworkState(p, note.networkState)
    ensures note.TimeChanged? ==> r == OnTimeChanged(p)
    ensures note.PauseStateChanged? ==> r == OnPauseStateChange(p, note.paused)
    ensures note.SeekComplete? ==> r == OnSeekComplete(p)
    ensures note.SeekRequest? ==> r == OnRequestSeek(p, note.time)
    ensures note.PlayerSuspend? ==> r == OnPlayerSuspend(p, note.isPreempted)
    ensures note.PlayerResumed? ==> r == OnPlayerResumed(p, note.isPreempted)
    ensures note.PlayerDestroyed? ==> r == OnPlayerDestroyed(p)
  {
    if ReportsMedia(note) then HandleMediaReport(p, note) else HandlePlayerReport(p, note)
  }

  /**
   * The destructor's messages: the remote player is destroyed, the client
   * loses the layer, and the delegate hears the player is gone and loses its
   * observer. Leaving the registry is the manager's half.
   */
  function Destroy(p: Proxy): (r: Step)
    requires p.Ready()
    ensures r.sent == [DestroyPlayer] && r.p == p
    ensures p.hasDelegate ==>
              r.calls == [Client(SetCcLayer(false)), Delegate(PlayerGone), Delegate(RemoveObserver)]
    ensures !p.hasDelegate ==> r.calls == [Client(SetCcLayer(false))]
  {
    Step(p, [DestroyPlayer], [Client(SetCcLayer(false))] + ToDelegate(p, PlayerGone) + ToDelegate(p, RemoveObserver))
  }
}
