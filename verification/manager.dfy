/**
 * CastanetsRendererMediaPlayerManager: the per-frame registry of media
 * players. It hands out player ids, looks players up by id, forwards the
 * remote player's notifications to the registered proxy, and turns the
 * proxy's requests into one routed host message each.
 *
 * The id counter is a process-wide static, shared by the managers of all
 * frames, so it is threaded through as explicit state next to the manager.
 */
module PlayerManager {
  import opened Wrappers
  import opened MediaTypes
  import opened Messages
  import opened PlayerIds

  /** A registered blink::WebMediaPlayer, by identity. */
  datatype PlayerRef = PlayerRef(handle: nat)

  /**
   * The manager of one frame: its IPC routing id, the id-to-player map, and
   * the log of every message it has sent, oldest first.
   */
  datatype Manager = Manager(
    routingId: int,
    players: map<PlayerId, PlayerRef>,
    sent: seq<Envelope>)

  /** A freshly constructed manager. */
  function NewManager(routingId: int): (m: Manager)
    ensures m.players == map[] && m.sent == [] && m.routingId == routingId
  {
    Manager(routingId, map[], [])
  }

  // ---------------------------------------------------------------------------
  // The registry

  /** The outcome of a registration: the new manager and the allocated id. */
  datatype Registered = Registered(manager: Manager, id: PlayerId)

  /**
   * RegisterMediaPlayer. `counter` is the value of the process-wide counter
   * before the call; the returned id is also its value after the call.
   */
  function Register(m: Manager, counter: bv32, player: PlayerRef): (r: Registered)
    ensures r.id.bits & HighMask == counter & HighMask
    ensures r.id.bits & LowMask == (counter + 1) & LowMask
    ensures GetMediaPlayer(r.manager, r.id) == Some(player)
    ensures forall other :: other != r.id ==> GetMediaPlayer(r.manager, other) == GetMediaPlayer(m, other)
    ensures r.manager.routingId == m.routingId && r.manager.sent == m.sent
  {
    var id := PlayerId(NextId(counter));
    Registered(m.(players := m.players[id := player]), id)
  }

  /** UnregisterMediaPlayer: erasing an id that is not present changes nothing. */
  function Unregister(m: Manager, id: PlayerId): (r: Manager)
    ensures GetMediaPlayer(r, id) == None
    ensures forall other :: other != id ==> GetMediaPlayer(r, other) == GetMediaPlayer(m, other)
    ensures id !in m.players ==> r == m
    ensures r.routingId == m.routingId && r.sent == m.sent
  {
    m.(players := m.players - {id})
  }

  /** GetMediaPlayer: the registered player, or None where the source returns NULL. */
  function GetMediaPlayer(m: Manager, id: PlayerId): (r: Option<PlayerRef>)
    ensures r.Some? <==> id in m.players
    ensures r.Some? ==> m.players[id] == r.value
  {
    if id in m.players then Some(m.players[id]) else None
  }

  /**
   * The counter wraps: from a counter whose low half is zero, the 2^16 + 1-th
   * registration gets the first one's id again and takes over its entry.
   */
  lemma CollidingIdOverwrites(m: Manager, counter: bv32, refs: seq<PlayerRef>)
    requires counter & LowMask == 0 && |refs| == Window + 1
    ensures var r := RegisterAll(m, counter, refs);
            && r.2[Window] == r.2[0]
            && GetMediaPlayer(r.0, r.2[0]) == Some(refs[Window])
  {
    var r := RegisterAll(m, counter, refs);
    var earlier, later := Allocate(counter, 1), Allocate(counter, 1 + Window);
    IdsRepeatAfterWindow(counter, 1, earlier, later);
    assert r.2[0] == PlayerId(earlier) && r.2[Window] == PlayerId(later);
  }

  /**
   * Registers `refs` in order. Returns the manager, the counter afterwards,
   * and the id each player received.
   */
  function RegisterAll(m: Manager, counter: bv32, refs: seq<PlayerRef>): (r: (Manager, bv32, seq<PlayerId>))
    ensures |r.2| == |refs|
    ensures r.1 == Allocate(counter, |refs|)
    ensures forall i :: 0 <= i < |refs| ==> r.2[i] == PlayerId(Allocate(counter, i + 1))
    ensures refs != [] ==> GetMediaPlayer(r.0, r.2[|refs| - 1]) == Some(refs[|refs| - 1])
    ensures r.0.routingId == m.routingId && r.0.sent == m.sent
    decreases |refs|
  {
    if refs == [] then (m, counter, [])
    else
      var p := RegisterAll(m, counter, refs[..|refs| - 1]);
      var last := Register(p.0, p.1, refs[|refs| - 1]);
      (last.manager, last.id.bits, p.2 + [last.id])
  }

  /**
   * A fresh process can register up to 2^16 players in a row, in one frame,
   * and every one of them is found under the id it was given.
   */
  lemma WindowOfRegistrationsRetained(processId: bv32, m: Manager, refs: seq<PlayerRef>)
    requires |refs| <= Window
    ensures var r := RegisterAll(m, InitialCounter(processId), refs);
            forall i :: 0 <= i < |refs| ==> GetMediaPlayer(r.0, r.2[i]) == Some(refs[i])
  {
    var counter := InitialCounter(processId);
    var r := RegisterAll(m, counter, refs);
    forall i | 0 <= i < |refs|
      ensures GetMediaPlayer(r.0, r.2[i]) == Some(refs[i])
    {
      RetainedUnlessReused(m, counter, refs, i, r);
    }
  }

  /**
   * Within a window of 2^16 registrations from a counter whose low half is
   * zero, no later registration reuses an id, so each player stays found.
   */
  lemma {:induction false} RetainedUnlessReused(m: Manager, counter: bv32, refs: seq<PlayerRef>, i: nat, r: (Manager, bv32, seq<PlayerId>))
    requires counter & LowMask == 0 && i < |refs| <= Window
    requires r == RegisterAll(m, counter, refs)
    ensures GetMediaPlayer(r.0, r.2[i]) == Some(refs[i])
    decreases |refs|
  {
    var prefix := refs[..|refs| - 1];
    var p := RegisterAll(m, counter, prefix);
    var last := Register(p.0, p.1, refs[|refs| - 1]);
    assert r.0 == last.manager && r.2 == p.2 + [last.id];
    if i < |refs| - 1 {
      RetainedUnlessReused(m, counter, prefix, i, p);
      WindowPlayerIdsDistinct(counter, i + 1, |refs|);
      assert r.2[i] == p.2[i] && prefix[i] == refs[i];
    }
  }

  /** Two registrations less than 2^16 apart get different player ids. */
  lemma WindowPlayerIdsDistinct(counter: bv32, i: nat, j: nat)
    requires counter & LowMask == 0 && i < j < i + Window
    ensures PlayerId(Allocate(counter, i)) != PlayerId(Allocate(counter, j))
  {
    var earlier, later := Allocate(counter, i), Allocate(counter, j);
    WindowIdsDistinct(counter, i, j, earlier, later);
  }

  // ---------------------------------------------------------------------------
  // Outbound requests

  /**
   * The requests a proxy makes of its manager, each of which sends one host
   * message. Activate and Deactivate are declared by the manager but never
   * defined, so they have no request here.
   */
  datatype Request =
    | Initialize(playerType: PlayerType, url: string, mimeType: string, demuxerClientId: int)
    | Start
    | PausePlayer(isMediaRelatedAction: bool)
    | SeekTo(time: Micros)
    | ChangeVolume(volume: real)
    | ChangeRate(rate: real)
    | DestroyPlayer
    | SuspendPlayer
    | ResumePlayer
    | NotifyEnteredFullscreen
    | NotifyExitedFullscreen
    | SetMediaGeometry(rect: RectF)

  /** The fixed fields Initialize adds to the caller's arguments. */
  const InitHasEncryptedListenerOrCdm := false
  const InitIsAudio := 0
  const InitNodeId := 10

  /**
   * The host message each request sends. Only Initialize sends an Init, and
   * it fills in the fixed fields; no request sends Activate or Deactivate.
   */
  function ToHostMsg(q: Request): (r: HostMsg)
    ensures r.Init? <==> q.Initialize?
    ensures r.Init? ==> r.config == InitConfig(q.playerType, q.url, q.mimeType, q.demuxerClientId,
                                               InitHasEncryptedListenerOrCdm, InitIsAudio, InitNodeId)
    ensures !r.Activate? && !r.Deactivate?
  {
    match q
    case Initialize(t, u, mt, d) =>
      Init(InitConfig(t, u, mt, d, InitHasEncryptedListenerOrCdm, InitIsAudio, InitNodeId))
    case Start => Play
    case PausePlayer(a) => Pause(a)
    case SeekTo(t) => Seek(t)
    case ChangeVolume(v) => SetVolume(v)
    case ChangeRate(r) => SetRate(r)
    case DestroyPlayer => DeInit
    case SuspendPlayer => Suspend
    case ResumePlayer => Resume
    case NotifyEnteredFullscreen => EnteredFullscreen
    case NotifyExitedFullscreen => ExitedFullscreen
    case SetMediaGeometry(r) => SetGeometry(r)
  }

  /**
   * The request a host message came from, if any: an Init whose fixed fields
   * differ from Initialize's, and Activate and Deactivate, come from none.
   */
  function FromHostMsg(msg: HostMsg): (r: Option<Request>)
    ensures r.Some? ==> ToHostMsg(r.value) == msg
  {
    match msg
    case Init(c) =>
      if c.hasEncryptedListenerOrCdm == InitHasEncryptedListenerOrCdm
         && c.isAudio == InitIsAudio && c.nodeId == InitNodeId
      then Some(Initialize(c.playerType, c.url, c.mimeType, c.demuxerClientId))
      else None
    case Play => Some(Start)
    case Pause(a) => Some(PausePlayer(a))
    case Seek(t) => Some(SeekTo(t))
    case SetVolume(v) => Some(ChangeVolume(v))
    case SetRate(r) => Some(ChangeRate(r))
    case DeInit => Some(DestroyPlayer)
    case Suspend => Some(SuspendPlayer)
    case Resume => Some(ResumePlayer)
    case EnteredFullscreen => Some(NotifyEnteredFullscreen)
    case ExitedFullscreen => Some(NotifyExitedFullscreen)
    case SetGeometry(r) => Some(SetMediaGeometry(r))
    case Activate => None
    case Deactivate => None
  }

  /** Every request's message decodes back to the request: no two requests share a message. */
  lemma RequestRoundTrip(q: Request)
    ensures FromHostMsg(ToHostMsg(q)) == Some(q)
  {
  }

  /** Exactly the Init messages carrying Initialize's fixed fields come from Initialize. */
  lemma InitFromInitializeOnly(c: InitConfig)
    ensures (exists q :: ToHostMsg(q) == Init(c))
        <==> (!c.hasEncryptedListenerOrCdm && c.isAudio == 0 && c.nodeId == 10)
  {
    if !c.hasEncryptedListenerOrCdm && c.isAudio == 0 && c.nodeId == 10 {
      assert ToHostMsg(Initialize(c.playerType, c.url, c.mimeType, c.demuxerClientId)) == Init(c);
    }
  }

  /**
   * Sends one request for `playerId`: exactly one envelope is appended, tagged
   * with the frame's routing id and the player id, and it carries the request.
   */
  function Send(m: Manager, playerId: PlayerId, q: Request): (r: Manager)
    ensures |r.sent| == |m.sent| + 1 && r.sent[..|m.sent|] == m.sent
    ensures r.sent[|m.sent|].routingId == m.routingId && r.sent[|m.sent|].playerId == playerId
    ensures FromHostMsg(r.sent[|m.sent|].msg) == Some(q)
    ensures r.routingId == m.routingId && r.players == m.players
  {
    RequestRoundTrip(q);
    m.(sent := m.sent + [Envelope(m.routingId, playerId, ToHostMsg(q))])
  }

  /** `e` is the envelope that sending `q` for `playerId` in frame `routingId` produces. */
  predicate Carries(e: Envelope, routingId: int, playerId: PlayerId, q: Request) {
    e.routingId == routingId && e.playerId == playerId && FromHostMsg(e.msg) == Some(q)
  }

  /** Sends a sequence of requests for one player, in order. */
  function SendAll(m: Manager, playerId: PlayerId, qs: seq<Request>): (r: Manager)
    ensures |r.sent| == |m.sent| + |qs| && r.sent[..|m.sent|] == m.sent
    ensures forall i :: 0 <= i < |qs| ==> Carries(r.sent[|m.sent| + i], m.routingId, playerId, qs[i])
    ensures r.routingId == m.routingId && r.players == m.players
    decreases |qs|
  {
    if qs == [] then m
    else
      var p := SendAll(m, playerId, qs[..|qs| - 1]);
      var r := Send(p, playerId, qs[|qs| - 1]);
      assert forall i :: 0 <= i < |qs| - 1 ==>
        r.sent[|m.sent| + i] == p.sent[|m.sent| + i] && qs[..|qs| - 1][i] == qs[i];
      r
  }

  // ---------------------------------------------------------------------------
  // Inbound notifications

  /** What OnMessageReceived did with one message. */
  datatype Dispatch =
    | Unhandled
    | Dropped(playerId: PlayerId)
    | Delivered(player: PlayerRef, note: Notification)
  {
    /** OnMessageReceived's return value. */
    predicate Handled() {
      !Unhandled?
    }
  }

  /**
   * OnMessageReceived with the forwarder it selects: a player notification is
   * forwarded, unchanged, to the player registered under its id, and dropped
   * when there is none; any other kind of message is reported unhandled.
   */
  function OnMessageReceived(m: Manager, msg: IpcMessage): (r: Dispatch)
    ensures r.Handled() <==> msg.FromPlayer?
    ensures r.Delivered? <==> msg.FromPlayer? && GetMediaPlayer(m, msg.playerId).Some?
    ensures r.Delivered? ==> Some(r.player) == GetMediaPlayer(m, msg.playerId) && r.note == msg.note
  {
    match msg
    case OtherKind(_) => Unhandled
    case FromPlayer(id, note) =>
      match GetMediaPlayer(m, id)
      case Some(player) => Delivered(player, note)
      case None => Dropped(id)
  }

  /** A notification for a just-registered id reaches the registered player. */
  lemma DeliveredAfterRegister(m: Manager, counter: bv32, player: PlayerRef, note: Notification)
    ensures var r := Register(m, counter, player);
            OnMessageReceived(r.manager, FromPlayer(r.id, note)) == Delivered(player, note)
  {
  }

  /** After unregistering, a late notification for the id is dropped and reaches nobody. */
  lemma DroppedAfterUnregister(m: Manager, id: PlayerId, note: Notification)
    ensures OnMessageReceived(Unregister(m, id), FromPlayer(id, note)) == Dropped(id)
  {
  }
}
