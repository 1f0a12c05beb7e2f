/**
 * Sequences of calls into one registered proxy: what blink, the media
 * delegate, the geometry timer and the remote player (through the manager)
 * can do to it, the invariant those calls keep, and the behaviour of short
 * call sequences that the proxy's design is about.
 */
module ProxyTrace {
  import opened MediaTypes
  import opened CleanUrl
  import opened PlayerManager
  import opened Player
  import Messages

  /** A call from blink, through the blink::WebMediaPlayer interface. */
  datatype BlinkCall =
    | LoadUrl(loadType: LoadType, url: string, mimeType: string, deferred: bool)
    | PlayMedia
    | PauseMedia
    | SeekMedia(time: Micros)
    | SetPlaybackRate(rate: real)
    | SetMediaVolume(volume: real)
    | EnterFullscreen
    | ExitFullscreen
    | PauseIfHealthy
    | PollLoadingProgress

  /** A call from the media delegate, through the delegate's observer interface. */
  datatype ObserverCall =
    | FrameHidden
    | FrameShown
    | DelegatePlay
    | DelegatePause
    | SeekForward(seconds: real)
    | SeekBackward(seconds: real)
    | VolumeMultiplier(multiplier: real)
    | PersistentVideo(value: bool)

  /**
   * One call into the proxy. DeferredLoad is the embedder running, later, a
   * DoLoad that an earlier Load handed to it.
   */
  datatype Event =
    | Blink(blink: BlinkCall)
    | Observer(observer: ObserverCall)
    | DrawableRectChanged(rect: Rect, isVideo: bool)
    | TimerTick(sample: RectF)
    | Remote(note: Messages.Notification)
    | DeferredLoad(loadType: LoadType, url: string, mimeType: string)

  /**
   * What the proxy demands of its callers for an event, beyond being
   * registered. Two kinds of event are allowed more freely than the callers
   * would produce them: observer calls also reach a proxy without a
   * delegate, and a DeferredLoad may come without an earlier deferred Load.
   * Every property proved over traces therefore also covers those cases.
   */
  predicate Permitted(e: Event) {
    match e
    case Blink(LoadUrl(t, url, _, deferred)) => !deferred && t == LoadTypeUrl ==> !StartsWith(url, AppScheme)
    case DeferredLoad(t, url, _) => t == LoadTypeUrl ==> !StartsWith(url, AppScheme)
    case Observer(SeekForward(s)) => s >= 0.0
    case Observer(SeekBackward(s)) => s >= 0.0
    case _ => true
  }

  predicate AllPermitted(es: seq<Event>) {
    forall i :: 0 <= i < |es| ==> Permitted(es[i])
  }

  function ApplyBlink(p: Proxy, c: BlinkCall): (r: Step)
    requires p.Ready() && Permitted(Blink(c))
    ensures SameIdentity(p, r.p)
  {
    match c
    case LoadUrl(t, url, mimeType, deferred) => Load(p, t, url, mimeType, deferred).0
    case PlayMedia => Play(p)
    case PauseMedia => Pause(p)
    case SeekMedia(t) => Seek(p, t)
    case SetPlaybackRate(rate) => SetRate(p, rate)
    case SetMediaVolume(v) => SetVolume(p, v)
    case EnterFullscreen => EnteredFullscreen(p)
    case ExitFullscreen => ExitedFullscreen(p)
    case PauseIfHealthy => RequestPausing(p)
    case PollLoadingProgress => Step(DidLoadingProgress(p).0, [], [])
  }

  function ApplyObserver(p: Proxy, c: ObserverCall): (r: Step)
    requires p.Ready() && Permitted(Observer(c))
    ensures SameIdentity(p, r.p)
  {
    match c
    case FrameHidden => SuspendAndReleaseResources(p)
    case FrameShown => Resume(p)
    case DelegatePlay => OnPlay(p)
    case DelegatePause => OnPause(p)
    case SeekForward(s) => OnSeekForward(p, s)
    case SeekBackward(s) => OnSeekBackward(p, s)
    case VolumeMultiplier(m) => OnVolumeMultiplierUpdate(p, m)
    case PersistentVideo(v) => OnBecamePersistentVideo(p, v)
  }

  /**
   * One event. The geometry timer only fires while it runs; a tick of a
   * stopped timer changes nothing.
   */
  function Apply(p: Proxy, e: Event): (r: Step)
    requires p.Ready() && Permitted(e)
    ensures SameIdentity(p, r.p)
    ensures e.TimerTick? && !p.geometry.timerRunning ==> r == Step(p, [], [])
    ensures e.TimerTick? && p.geometry.timerRunning ==> r == OnLayerBoundUpdateTimerFired(p, e.sample)
  {
    match e
    case Blink(c) => ApplyBlink(p, c)
    case Observer(c) => ApplyObserver(p, c)
    case DrawableRectChanged(rect, isVideo) => OnDrawableContentRectChanged(p, rect, isVideo)
    case TimerTick(sample) =>
      if p.geometry.timerRunning then OnLayerBoundUpdateTimerFired(p, sample) else Step(p, [], [])
    case Remote(note) => Handle(p, note)
    case DeferredLoad(t, url, mimeType) => DoLoad(p, t, url, mimeType)
  }

  /** A sequence of events, with everything sent and called along the way, in order. */
  function Run(p: Proxy, es: seq<Event>): (r: Step)
    requires p.Ready() && AllPermitted(es)
    ensures SameIdentity(p, r.p)
    decreases |es|
  {
    if es == [] then Step(p, [], [])
    else
      var s := Run(p, es[..|es| - 1]);
      var t := Apply(s.p, es[|es| - 1]);
      Step(t.p, s.sent + t.sent, s.calls + t.calls)
  }

  // ---------------------------------------------------------------------------
  // The invariant

  /**
   * What holds of every registered proxy: a deferred play only waits while
   * the video cannot be drawn; the stored volume never leaves its initial
   * value; a seek time is only held during a seek; and known video always
   * has a layer.
   */
  predicate Valid(p: Proxy) {
    && p.Ready()
    && (p.playback.pendingPlay ==> !p.playback.isDrawReady)
    && p.playback.volume == 1.0
    && (!p.seeking.isSeeking ==> p.seeking.seekTime == 0)
    && (p.media.video ==> p.media.videoLayer)
  }

  /** A freshly constructed proxy, once registered, is valid. */
  lemma CreatedValid(hasDelegate: bool, bits: MediaBits, id: Messages.PlayerId)
    ensures Valid(SetMediaPlayerManager(Create(hasDelegate, bits), id))
  {
  }

  lemma BlinkKeepsValid(p: Proxy, c: BlinkCall)
    requires Valid(p) && Permitted(Blink(c))
    ensures Valid(ApplyBlink(p, c).p)
  {
  }

  lemma ObserverKeepsValid(p: Proxy, c: ObserverCall)
    requires Valid(p) && Permitted(Observer(c))
    ensures Valid(ApplyObserver(p, c).p)
  {
  }

  lemma HandleKeepsValid(p: Proxy, note: Messages.Notification)
    requires Valid(p)
    ensures Valid(Handle(p, note).p)
  {
  }

  /** Every event keeps the invariant. */
  lemma ApplyKeepsValid(p: Proxy, e: Event)
    requires Valid(p) && Permitted(e)
    ensures Valid(Apply(p, e).p)
  {
    match e
    case Blink(c) => BlinkKeepsValid(p, c);
    case Observer(c) => ObserverKeepsValid(p, c);
    case Remote(note) => HandleKeepsValid(p, note);
    case _ =>
  }

  /** Every sequence of events keeps the invariant. */
  lemma {:induction false} RunKeepsValid(p: Proxy, es: seq<Event>)
    requires Valid(p) && AllPermitted(es)
    ensures Valid(Run(p, es).p)
    decreases |es|
  {
    if es != [] {
      var prefix := es[..|es| - 1];
      assert AllPermitted(prefix) by {
        forall i | 0 <= i < |prefix| ensures Permitted(prefix[i]) {
          assert prefix[i] == es[i];
        }
      }
      RunKeepsValid(p, prefix);
      ApplyKeepsValid(Run(p, prefix).p, es[|es| - 1]);
    }
  }

  /** Re-applying the volume multiplier always re-sends the initial volume. */
  lemma MultiplierResendsInitialVolume(p: Proxy, multiplier: real)
    requires Valid(p)
    ensures OnVolumeMultiplierUpdate(p, multiplier).sent == [ChangeVolume(1.0)]
  {
  }

  // ---------------------------------------------------------------------------
  // Events that only talk

  /** The events that make calls or send requests but never change the proxy. */
  predicate Stateless(e: Event) {
    match e
    case Blink(c) => c.SetPlaybackRate? || c.SetMediaVolume?
    case Observer(c) => !c.FrameHidden?
    case Remote(note) => note.TimeChanged? || note.SeekRequest? || note.PlayerResumed? || note.PlayerDestroyed?
    case _ => false
  }

  /** Stateless events leave the proxy exactly as it was, and each makes at most one call or request. */
  lemma StatelessLeavesProxy(p: Proxy, e: Event)
    requires p.Ready() && Permitted(e) && Stateless(e)
    ensures Apply(p, e).p == p
    ensures |Apply(p, e).sent| + |Apply(p, e).calls| <= 1
  {
  }

  // ---------------------------------------------------------------------------
  // Seeking

  /** The number of seek requests among `qs`. */
  function SeekCount(qs: seq<Request>): nat
    decreases |qs|
  {
    if qs == [] then 0
    else SeekCount(qs[..|qs| - 1]) + (if qs[|qs| - 1].SeekTo? then 1 else 0)
  }

  lemma {:induction false} SeekCountConcat(a: seq<Request>, b: seq<Request>)
    ensures SeekCount(a + b) == SeekCount(a) + SeekCount(b)
    decreases |b|
  {
    if b != [] {
      var ab := a + b;
      assert ab[..|ab| - 1] == a + b[..|b| - 1];
      assert ab[|ab| - 1] == b[|b| - 1];
      SeekCountConcat(a, b[..|b| - 1]);
    } else {
      assert a + b == a;
    }
  }

  lemma SeekCountTwo(x: Request, y: Request)
    ensures SeekCount([x]) == (if x.SeekTo? then 1 else 0)
    ensures SeekCount([x, y]) == SeekCount([x]) + (if y.SeekTo? then 1 else 0)
  {
    assert [x, y][..1] == [x];
    assert [x][..0] == [];
  }

  /** Blink's Seek. */
  predicate IsSeek(e: Event) {
    e.Blink? && e.blink.SeekMedia?
  }

  /** SeekCount of a request list of at most two. */
  lemma SeekCountShort(qs: seq<Request>)
    requires |qs| <= 2
    ensures SeekCount(qs) == (if |qs| >= 1 && qs[0].SeekTo? then 1 else 0)
                           + (if |qs| == 2 && qs[1].SeekTo? then 1 else 0)
  {
    if |qs| == 1 {
      SeekCountTwo(qs[0], qs[0]);
      assert qs == [qs[0]];
    } else if |qs| == 2 {
      SeekCountTwo(qs[0], qs[1]);
      assert qs == [qs[0], qs[1]];
    }
  }

  /**
   * Outside a seek completion, only a Seek started while idle sends a seek
   * request, and only such a Seek starts a seek.
   */
  lemma ApplySeekEffect(p: Proxy, e: Event)
    requires p.Ready() && Permitted(e) && e != Remote(Messages.SeekComplete)
    ensures Apply(p, e).p.seeking.isSeeking == (p.seeking.isSeeking || IsSeek(e))
    ensures SeekCount(Apply(p, e).sent) == (if IsSeek(e) && !p.seeking.isSeeking then 1 else 0)
  {
    var t := Apply(p, e);
    match e {
      case Blink(c) => BlinkSeekEffect(p, c);
      case Observer(c) => ObserverSeekEffect(p, c);
      case Remote(note) => RemoteSeekEffect(p, note);
      case _ =>
    }
    assert |t.sent| <= 2;
    SeekCountShort(t.sent);
  }

  lemma BlinkSeekEffect(p: Proxy, c: BlinkCall)
    requires p.Ready() && Permitted(Blink(c))
    ensures |ApplyBlink(p, c).sent| <= 1
    ensures ApplyBlink(p, c).p.seeking.isSeeking == (p.seeking.isSeeking || c.SeekMedia?)
    ensures forall i :: 0 <= i < |ApplyBlink(p, c).sent| ==>
              (ApplyBlink(p, c).sent[i].SeekTo? <==> c.SeekMedia? && !p.seeking.isSeeking)
  {
  }

  lemma ObserverSeekEffect(p: Proxy, c: ObserverCall)
    requires p.Ready() && Permitted(Observer(c))
    ensures |ApplyObserver(p, c).sent| <= 1
    ensures ApplyObserver(p, c).p.seeking.isSeeking == p.seeking.isSeeking
    ensures forall i :: 0 <= i < |ApplyObserver(p, c).sent| ==> !ApplyObserver(p, c).sent[i].SeekTo?
  {
  }

  lemma RemoteSeekEffect(p: Proxy, note: Messages.Notification)
    requires p.Ready() && !note.SeekComplete?
    ensures Handle(p, note).sent == []
    ensures Handle(p, note).p.seeking.isSeeking == p.seeking.isSeeking
  {
  }

  /**
   * Until the remote player reports a seek complete, at most one seek
   * request is sent, none at all when a seek was already in flight, and the
   * proxy is seeking exactly when it was or when that request went out.
   */
  lemma {:induction false} OneSeekInFlight(p: Proxy, es: seq<Event>)
    requires p.Ready() && AllPermitted(es)
    requires forall i :: 0 <= i < |es| ==> es[i] != Remote(Messages.SeekComplete)
    ensures SeekCount(Run(p, es).sent) <= 1
    ensures p.seeking.isSeeking ==> SeekCount(Run(p, es).sent) == 0
    ensures Run(p, es).p.seeking.isSeeking == (p.seeking.isSeeking || SeekCount(Run(p, es).sent) == 1)
    decreases |es|
  {
    if es != [] {
      var prefix := es[..|es| - 1];
      assert AllPermitted(prefix) by {
        forall i | 0 <= i < |prefix| ensures Permitted(prefix[i]) {
          assert prefix[i] == es[i];
        }
      }
      assert forall i :: 0 <= i < |prefix| ==> prefix[i] != Remote(Messages.SeekComplete) by {
        forall i | 0 <= i < |prefix| ensures prefix[i] != Remote(Messages.SeekComplete) {
          assert prefix[i] == es[i];
        }
      }
      OneSeekInFlight(p, prefix);
      var s := Run(p, prefix);
      ApplySeekEffect(s.p, es[|es| - 1]);
      SeekCountConcat(s.sent, Apply(s.p, es[|es| - 1]).sent);
    }
  }

  /**
   * CurrentTime right after Seek(t) reports t, except when an earlier queued
   * seek survived its completion with a different time: then the stale
   * queued time is reported instead.
   */
  lemma CurrentTimeAfterSeek(p: Proxy, t: Micros)
    requires p.Ready()
    ensures CurrentTime(Seek(p, t).p) == Seconds(t)
        <==> !(!p.seeking.isSeeking && p.seeking.pendingSeek && p.seeking.pendingSeekTime != t)
    ensures !p.seeking.isSeeking && p.seeking.pendingSeek ==>
              CurrentTime(Seek(p, t).p) == Seconds(p.seeking.pendingSeekTime)
  {
  }

  /**
   * A seek queued behind another is never sent: the completion of the first
   * leaves it queued, the next Seek is sent as requested, and CurrentTime then
   * reports the queued time rather than the one requested.
   */
  lemma QueuedSeekOutlivesCompletion(p: Proxy, a: Micros, b: Micros, c: Micros)
    requires Valid(p) && !p.seeking.isSeeking
    requires a != b && c != b
    ensures var s1 := Seek(p, a);
            var s2 := Seek(s1.p, b);
            var s3 := OnSeekComplete(s2.p);
            var s4 := Seek(s3.p, c);
            && s1.sent + s2.sent + s3.sent + s4.sent == [SeekTo(a), SeekTo(c)]
            && s3.p.seeking.pendingSeek && !s3.p.seeking.isSeeking
            && CurrentTime(s4.p) == Seconds(b) && CurrentTime(s4.p) != Seconds(c)
  {
  }

  // ---------------------------------------------------------------------------
  // Playing and pausing

  /** A pause after a play leaves the proxy paused with no deferred play, whatever Play did. */
  lemma PlayThenPause(p: Proxy)
    requires Valid(p)
    ensures var s1 := Play(p);
            var s2 := Pause(s1.p);
            && s2.p.playback.isPaused && !s2.p.playback.pendingPlay
            && s1.sent + s2.sent == (if MustDeferPlay(p) then [] else [Start]) + [PausePlayer(false)]
  {
  }

  /** A play deferred for an undrawable video starts as soon as the video can be drawn. */
  lemma DeferredPlayStartsWhenDrawable(p: Proxy, rect: Rect, isVideo: bool)
    requires Valid(p) && p.media.video && !p.playback.isDrawReady
    ensures var s1 := Play(p);
            var s2 := OnDrawableContentRectChanged(s1.p, rect, isVideo);
            && s1.sent == [] && s1.p.playback.isPaused == p.playback.isPaused
            && s2.sent == [SetMediaGeometry(ToRectF(rect)), Start]
            && !s2.p.playback.isPaused && !s2.p.playback.pendingPlay
  {
  }

  /** A pause between a deferred play and the video becoming drawable cancels the play. */
  lemma PauseCancelsDeferredPlay(p: Proxy, rect: Rect, isVideo: bool)
    requires Valid(p) && p.media.video && !p.playback.isDrawReady
    ensures var s1 := Play(p);
            var s2 := Pause(s1.p);
            var s3 := OnDrawableContentRectChanged(s2.p, rect, isVideo);
            && s1.sent + s2.sent + s3.sent == [PausePlayer(false), SetMediaGeometry(ToRectF(rect))]
            && s3.p.playback.isPaused
  {
  }

  /** Adopting a pause state twice acts once. */
  lemma PauseStateChangeIdempotent(p: Proxy, paused: bool)
    requires p.Ready()
    ensures var s1 := OnPauseStateChange(p, paused);
            s1.p.playback.isPaused == paused && OnPauseStateChange(s1.p, paused) == Step(s1.p, [], [])
  {
  }

  /** Hiding the frame of a loaded, playing proxy pauses it, tells the client, and suspends the remote player. */
  lemma HiddenFramePausesPlayback(p: Proxy)
    requires p.Ready() && p.media.playerType != TypeNone && !p.playback.isPaused
    ensures var s := SuspendAndReleaseResources(p);
            && s.p.playback.isPaused && s.sent == [SuspendPlayer]
            && |s.calls| > 0 && s.calls[0] == Client(RequestPause)
  {
  }

  /** A pre-empting suspension pauses a playing proxy, and a later resumption reports the pause. */
  lemma PreemptionReportedAsPause(p: Proxy)
    requires p.Ready() && p.hasDelegate && !p.playback.isPaused
    ensures var s1 := OnPlayerSuspend(p, true);
            var s2 := OnPlayerResumed(s1.p, true);
            && s1.p.playback.isPaused && s1.calls[0] == Client(RequestPause)
            && s2.calls == [Delegate(DidPause)]
  {
  }

  // ---------------------------------------------------------------------------
  // Fullscreen, geometry and media data

  /** Entering fullscreen twice and exiting once tells the remote player once each way and restores the proxy. */
  lemma FullscreenRoundTrip(p: Proxy)
    requires p.Ready() && !p.playback.isFullscreen
    ensures var s1 := EnteredFullscreen(p);
            var s2 := EnteredFullscreen(s1.p);
            var s3 := ExitedFullscreen(s2.p);
            && s3.p == p
            && s1.sent + s2.sent + s3.sent == [NotifyEnteredFullscreen, NotifyExitedFullscreen]
  {
  }

  /**
   * The running timer sends the first changed geometry and stops; later ticks
   * send nothing. A tick that sees an unchanged geometry keeps it running.
   */
  lemma TimerSendsFirstChange(p: Proxy, a: RectF, b: RectF)
    requires p.Ready() && p.geometry.timerRunning && p.media.videoLayer
    ensures a != p.geometry.lastComputedRect ==>
              var s1 := Apply(p, TimerTick(a));
              s1.sent == [SetMediaGeometry(a)] && !s1.p.geometry.timerRunning
              && Apply(s1.p, TimerTick(b)) == Step(s1.p, [], [])
    ensures Apply(p, TimerTick(p.geometry.lastComputedRect)) == Step(p, [], [])
  {
  }

  /**
   * With distinct, non-zero audio and video flags, `hasAudio` and `hasVideo`
   * decoded from `media` say which of the two flags it carries.
   */
  lemma DecodeFlags(media: bv32, audio: bv32, video: bv32, hasAudio: bool, hasVideo: bool)
    requires audio != 0 && video != 0 && audio & video == 0
    requires hasAudio == HasBit(media, audio) && hasVideo == HasBit(media, video)
    ensures media == audio | video ==> hasAudio && hasVideo
    ensures media == audio ==> hasAudio && !hasVideo
    ensures media == video ==> !hasAudio && hasVideo
    ensures media == 0 ==> !hasAudio && !hasVideo
  {
    DistinctFlagBits(audio, video);
    if media == audio | video {
      assert hasAudio == HasBit(audio | video, audio) && hasVideo == HasBit(audio | video, video);
    } else if media == audio {
      assert hasAudio == HasBit(audio, audio) && hasVideo == HasBit(audio, video);
    } else if media == video {
      assert hasAudio == HasBit(video, audio) && hasVideo == HasBit(video, video);
    }
  }

  /** The four combinations of two distinct, non-zero flags. */
  lemma DistinctFlagBits(audio: bv32, video: bv32)
    requires audio != 0 && video != 0 && audio & video == 0
    ensures HasBit(video, video) && !HasBit(video, audio)
    ensures HasBit(audio, audio) && !HasBit(audio, video)
    ensures HasBit(audio | video, audio) && HasBit(audio | video, video)
    ensures !HasBit(0, audio) && !HasBit(0, video)
  {
  }

  /**
   * With distinct, non-zero audio and video flags, the media bits a
   * MediaDataChanged notification carries say which tracks are present.
   */
  lemma TrackFlagsDecoded(p: Proxy, width: int, height: int, media: bv32, audio: bv32, video: bv32)
    requires p.Ready() && p.bits == MediaBits(audio, video)
    requires audio != 0 && video != 0 && audio & video == 0
    ensures var m := OnMediaDataChange(p, width, height, media).p.media;
            && (media == audio | video ==> m.audio && m.video)
            && (media == audio ==> m.audio && !m.video)
            && (media == video ==> !m.audio && m.video)
            && (media == 0 ==> !m.audio && !m.video)
  {
    var m := OnMediaDataChange(p, width, height, media).p.media;
    DecodeFlags(media, audio, video, m.audio, m.video);
  }

  /** A video track attaches a layer for the client and starts the geometry timer. */
  lemma VideoAttachesLayer(p: Proxy, width: int, height: int)
    requires p.Ready() && p.bits.video != 0 && !p.media.videoLayer
    ensures var s := OnMediaDataChange(p, width, height, p.bits.video);
            && s.p.media.video && s.p.media.videoLayer && s.p.geometry.timerRunning
            && s.calls == [Client(SetCcLayer(true))]
  {
    var v := p.bits.video;
    assert v & v == v;
  }

  // ---------------------------------------------------------------------------
  // What the proxy reports

  /** The delegate's seek steps ask for times symmetric about CurrentTime. */
  lemma SeekStepsSymmetric(p: Proxy, seconds: real)
    requires p.Ready() && seconds >= 0.0
    ensures var f := OnSeekForward(p, seconds).calls;
            var b := OnSeekBackward(p, seconds).calls;
            && |f| == 1 && |b| == 1 && f[0].Client? && b[0].Client?
            && f[0].clientCall.RequestSeek? && b[0].clientCall.RequestSeek?
            && f[0].clientCall.seconds - CurrentTime(p) == seconds
            && CurrentTime(p) - b[0].clientCall.seconds == seconds
  {
  }

  /**
   * A time update is what CurrentTime reports unless a seek is in flight, and
   * the client is not told about it.
   */
  lemma TimeUpdateReportedUnlessSeeking(p: Proxy, t: Micros)
    requires p.Ready()
    ensures var s := OnTimeUpdate(p, t);
            && s.calls == [] && s.sent == []
            && CurrentTime(s.p) == if p.seeking.isSeeking then CurrentTime(p) else Seconds(t)
  {
  }

  /**
   * Once the duration is known and the ready state reaches metadata, the
   * whole duration is seekable; before metadata nothing is.
   */
  lemma SeekableAfterMetadata(p: Proxy, d: Micros, state: ReadyState)
    requires p.Ready()
    ensures var s := SetReadyState(OnDurationChanged(p, d).p, state).p;
            Seekable(s) == if state == HaveNothing then [] else [TimeRange(0.0, Seconds(d))]
  {
  }

  /** A buffer update stretches the buffered range to that share of the duration. */
  lemma BufferedShareOfDuration(p: Proxy, percentage: int)
    requires p.Ready()
    ensures var b := Buffered(OnBufferUpdate(p, percentage).p);
            && b == [TimeRange(0.0, Duration(p) * percentage as real / 100.0)]
            && (percentage == 100 ==> b[0].end == Duration(p))
            && (percentage == 0 ==> b[0].end == 0.0)
  {
  }

  /**
   * RequestPause acts exactly when the last network state reported is idle,
   * loading or loaded: then it pauses and asks the client to pause.
   */
  lemma PauseRequestFollowsNetwork(p: Proxy, state: NetworkState)
    requires p.Ready()
    ensures var q := SetNetworkState(p, state).p;
            var s := RequestPausing(q);
            && (s.sent != [] <==> state in {NetworkIdle, NetworkLoading, NetworkLoaded})
            && (s.sent != [] ==> s.sent == [PausePlayer(false)] && s.p.playback.isPaused
                                 && s.calls[|s.calls| - 1] == Client(RequestPause))
  {
  }

  // ---------------------------------------------------------------------------
  // Loading

  /** After a buffer update, loading progress is reported exactly once. */
  lemma LoadingProgressReportedOnce(p: Proxy, percentage: int)
    requires p.Ready()
    ensures var b := OnBufferUpdate(p, percentage).p;
            var d1 := DidLoadingProgress(b);
            var d2 := DidLoadingProgress(d1.0);
            d1.1 && !d2.1 && d2.0 == d1.0
  {
  }

  /** A buffer update from the remote player. */
  predicate IsBufferUpdate(e: Event) {
    e.Remote? && e.note.BufferUpdate?
  }

  lemma BlinkRaisesNoProgress(p: Proxy, c: BlinkCall)
    requires p.Ready() && Permitted(Blink(c))
    ensures ApplyBlink(p, c).p.loading.didLoadingProgress ==> p.loading.didLoadingProgress
  {
  }

  lemma ObserverRaisesNoProgress(p: Proxy, c: ObserverCall)
    requires p.Ready() && Permitted(Observer(c))
    ensures ApplyObserver(p, c).p.loading.didLoadingProgress ==> p.loading.didLoadingProgress
  {
  }

  lemma RemoteRaisesNoProgress(p: Proxy, note: Messages.Notification)
    requires p.Ready() && !note.BufferUpdate?
    ensures Handle(p, note).p.loading.didLoadingProgress ==> p.loading.didLoadingProgress
  {
  }

  /** Only a buffer update raises the loading-progress flag. */
  lemma OnlyBufferUpdateRaisesProgress(p: Proxy, e: Event)
    requires p.Ready() && Permitted(e) && !IsBufferUpdate(e)
    ensures Apply(p, e).p.loading.didLoadingProgress ==> p.loading.didLoadingProgress
  {
    match e
    case Blink(c) => BlinkRaisesNoProgress(p, c);
    case Observer(c) => ObserverRaisesNoProgress(p, c);
    case Remote(note) => RemoteRaisesNoProgress(p, note);
    case _ =>
  }

  /**
   * Once DidLoadingProgress has reported, it keeps reporting false until the
   * next buffer update, whatever else happens in between.
   */
  lemma {:induction false} NoProgressWithoutBufferUpdate(p: Proxy, es: seq<Event>)
    requires p.Ready() && AllPermitted(es) && !p.loading.didLoadingProgress
    requires forall i :: 0 <= i < |es| ==> !IsBufferUpdate(es[i])
    ensures !DidLoadingProgress(Run(p, es).p).1
    decreases |es|
  {
    if es != [] {
      var prefix := es[..|es| - 1];
      assert AllPermitted(prefix) by {
        forall i | 0 <= i < |prefix| ensures Permitted(prefix[i]) {
          assert prefix[i] == es[i];
        }
      }
      assert forall i :: 0 <= i < |prefix| ==> !IsBufferUpdate(prefix[i]) by {
        forall i | 0 <= i < |prefix| ensures !IsBufferUpdate(prefix[i]) {
          assert prefix[i] == es[i];
        }
      }
      NoProgressWithoutBufferUpdate(p, prefix);
      OnlyBufferUpdateRaisesProgress(Run(p, prefix).p, es[|es| - 1]);
    }
  }

  /** A URL load sends one Initialize with the cleaned URL; any other load type sends nothing. */
  lemma LoadSendsCleanUrl(p: Proxy, t: LoadType, url: string, mimeType: string)
    requires p.Ready() && (t == LoadTypeUrl ==> !StartsWith(url, AppScheme))
    ensures var s := Apply(p, Blink(LoadUrl(t, url, mimeType, false)));
            && (t == LoadTypeUrl <==> s.sent != [])
            && (t == LoadTypeUrl ==>
                  s.sent == [Initialize(TypeUrlWithVideoHole, GetCleanURL(url), mimeType, 0)]
                  && s.p.media.playerType == TypeUrlWithVideoHole)
    ensures Apply(p, Blink(LoadUrl(t, url, mimeType, true))) == Step(p, [], [])
  {
  }

  /**
   * A deferred load does nothing now, whatever the URL, and when the embedder
   * later runs it, it does exactly what the load would have done at once.
   */
  lemma DeferredLoadRunsLater(p: Proxy, t: LoadType, url: string, mimeType: string)
    requires p.Ready()
    ensures Apply(p, Blink(LoadUrl(t, url, mimeType, true))) == Step(p, [], [])
    ensures t == LoadTypeUrl ==> !StartsWith(url, AppScheme) ==>
              var d := Apply(p, Blink(LoadUrl(t, url, mimeType, true)));
              Apply(d.p, DeferredLoad(t, url, mimeType)) == Apply(p, Blink(LoadUrl(t, url, mimeType, false)))
  {
  }

  /**
   * Over a proxy's lifetime the delegate sees AddObserver first and
   * RemoveObserver last, exactly when there is a delegate, whatever the
   * proxy did in between.
   */
  lemma ObserverSpansLifetime(hasDelegate: bool, bits: MediaBits, id: Messages.PlayerId, es: seq<Event>)
    requires AllPermitted(es)
    ensures var c := Construct(hasDelegate, bits);
            var p := SetMediaPlayerManager(c.0, id);
            var d := Destroy(Run(p, es).p).calls;
            && (hasDelegate ==> c.1 == [Delegate(AddObserver)] && d[|d| - 1] == Delegate(RemoveObserver))
            && (!hasDelegate ==> c.1 == [] && Delegate(RemoveObserver) !in d)
  {
    var p := SetMediaPlayerManager(Construct(hasDelegate, bits).0, id);
    assert Run(p, es).p.hasDelegate == hasDelegate;
  }
}
