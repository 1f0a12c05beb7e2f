/**
 * A renderer process's media players wired together. Each frame has a
 * manager and the proxies its registry points at; the id counter is one
 * static shared by every frame of the process. A proxy registers when it is
 * given its frame's manager, its requests leave through that manager under
 * its player id, the manager forwards the remote player's notifications to
 * the registered proxy, and a destroyed proxy sends its last request and
 * leaves the registry.
 */
module Renderer {
  import opened Wrappers
  import opened MediaTypes
  import opened Messages
  import opened PlayerIds
  import opened PlayerManager
  import Player
  import ProxyTrace

  /** One frame: its manager and its live proxies by identity. */
  datatype Frame = Frame(manager: Manager, proxies: map<PlayerRef, Player.Proxy>)

  /**
   * The registry never points at a destroyed proxy, and each entry points at
   * a proxy holding that entry's id; every live proxy is valid. A live proxy
   * whose id a newer registration reused is no longer in the registry.
   */
  predicate Wired(f: Frame) {
    && (forall id :: id in f.manager.players ==>
          f.manager.players[id] in f.proxies && f.proxies[f.manager.players[id]].playerId == id)
    && (forall h :: h in f.proxies ==> ProxyTrace.Valid(f.proxies[h]))
  }

  /** A frame before any media player exists in it. */
  function NewFrame(routingId: int): (f: Frame)
    ensures Wired(f) && f.proxies == map[] && f.manager.players == map[] && f.manager.sent == []
    ensures f.manager.routingId == routingId
  {
    Frame(NewManager(routingId), map[])
  }

  /**
   * A proxy is constructed and given the manager, with the process counter at
   * `counter`: it registers under the next id and keeps that id, which is also
   * the counter's new value. Every other proxy and registry entry is
   * unchanged unless the new id collides with it.
   */
  function AttachPlayer(f: Frame, counter: bv32, handle: PlayerRef, hasDelegate: bool, bits: MediaBits): (r: (Frame, PlayerId))
    requires Wired(f) && handle !in f.proxies
    ensures Wired(r.0)
    ensures r.0.proxies.Keys == f.proxies.Keys + {handle}
    ensures r.0.proxies[handle] == Player.SetMediaPlayerManager(Player.Create(hasDelegate, bits), r.1)
    ensures forall h :: h in f.proxies ==> r.0.proxies[h] == f.proxies[h]
    ensures GetMediaPlayer(r.0.manager, r.1) == Some(handle)
    ensures forall id :: id != r.1 ==> GetMediaPlayer(r.0.manager, id) == GetMediaPlayer(f.manager, id)
    ensures r.1 == PlayerId(NextId(counter))
    ensures r.0.manager.sent == f.manager.sent && r.0.manager.routingId == f.manager.routingId
  {
    var reg := Register(f.manager, counter, handle);
    var proxy := Player.SetMediaPlayerManager(Player.Create(hasDelegate, bits), reg.id);
    ProxyTrace.CreatedValid(hasDelegate, bits, reg.id);
    (Frame(reg.manager, f.proxies[handle := proxy]), reg.id)
  }

  /**
   * A live proxy's step takes effect: the proxy is replaced by its new state,
   * and each request it made leaves through the manager, in order, under the
   * frame's routing id and the proxy's player id.
   */
  function Commit(f: Frame, handle: PlayerRef, s: Player.Step): (r: Frame)
    requires Wired(f) && handle in f.proxies
    requires ProxyTrace.Valid(s.p) && s.p.playerId == f.proxies[handle].playerId
    ensures Wired(r)
    ensures r.proxies == f.proxies[handle := s.p]
    ensures r.manager.players == f.manager.players && r.manager.routingId == f.manager.routingId
    ensures |r.manager.sent| == |f.manager.sent| + |s.sent|
    ensures r.manager.sent[..|f.manager.sent|] == f.manager.sent
    ensures forall i :: 0 <= i < |s.sent| ==>
              Carries(r.manager.sent[|f.manager.sent| + i], f.manager.routingId, s.p.playerId, s.sent[i])
  {
    Frame(SendAll(f.manager, s.p.playerId, s.sent), f.proxies[handle := s.p])
  }

  /** One event on a live proxy, committed. */
  function Drive(f: Frame, handle: PlayerRef, e: ProxyTrace.Event): (r: (Frame, Player.Step))
    requires Wired(f) && handle in f.proxies && ProxyTrace.Permitted(e)
    ensures Wired(r.0)
    ensures r.1 == ProxyTrace.Apply(f.proxies[handle], e)
    ensures r.1.p.playerId == f.proxies[handle].playerId && ProxyTrace.Valid(r.1.p)
    ensures r.0 == Commit(f, handle, r.1)
  {
    var p := f.proxies[handle];
    var s := ProxyTrace.Apply(p, e);
    ProxyTrace.ApplyKeepsValid(p, e);
    (Commit(f, handle, s), s)
  }

  /**
   * OnMessageReceived with the forwarder it selects: a notification for a
   * registered id updates that proxy; one for an unknown id is handled but
   * reaches nobody; any other message is not handled. The calls the proxy
   * makes come back alongside.
   */
  function Deliver(f: Frame, msg: IpcMessage): (r: (Frame, bool, seq<Player.Callback>))
    requires Wired(f)
    ensures Wired(r.0)
    ensures r.1 <==> msg.FromPlayer?
    ensures r.0.manager == f.manager
    ensures !(msg.FromPlayer? && msg.playerId in f.manager.players) ==> r == (f, r.1, [])
    ensures msg.FromPlayer? && msg.playerId in f.manager.players ==>
              var h := f.manager.players[msg.playerId];
              var s := Player.Handle(f.proxies[h], msg.note);
              r.0.proxies == f.proxies[h := s.p] && r.2 == s.calls
  {
    match OnMessageReceived(f.manager, msg)
    case Unhandled => (f, false, [])
    case Dropped(_) => (f, true, [])
    case Delivered(h, note) =>
      var p := f.proxies[h];
      var s := Player.Handle(p, note);
      ProxyTrace.HandleKeepsValid(p, note);
      (f.(proxies := f.proxies[h := s.p]), true, s.calls)
  }

  /**
   * The proxy's destructor: the remote player is destroyed, the proxy's id
   * leaves the registry, and the proxy is gone.
   */
  function DetachPlayer(f: Frame, handle: PlayerRef): (r: (Frame, Player.Step))
    requires Wired(f) && handle in f.proxies
    ensures Wired(r.0)
    ensures r.1 == Player.Destroy(f.proxies[handle])
    ensures r.0.proxies == f.proxies - {handle}
    ensures GetMediaPlayer(r.0.manager, f.proxies[handle].playerId) == None
    ensures forall id :: id != f.proxies[handle].playerId ==>
              GetMediaPlayer(r.0.manager, id) == GetMediaPlayer(f.manager, id)
    ensures |r.0.manager.sent| == |f.manager.sent| + 1
    ensures r.0.manager.sent[..|f.manager.sent|] == f.manager.sent
    ensures Carries(r.0.manager.sent[|f.manager.sent|], f.manager.routingId,
                    f.proxies[handle].playerId, DestroyPlayer)
  {
    var p := f.proxies[handle];
    var s := Player.Destroy(p);
    var m := Unregister(SendAll(f.manager, p.playerId, s.sent), p.playerId);
    (Frame(m, f.proxies - {handle}), s)
  }

  /** A notification for a just-attached proxy reaches it, and only it. */
  lemma NotificationReachesAttachedPlayer(f: Frame, counter: bv32, handle: PlayerRef, hasDelegate: bool,
                                         bits: MediaBits, note: Notification)
    requires Wired(f) && handle !in f.proxies
    ensures var a := AttachPlayer(f, counter, handle, hasDelegate, bits);
            var d := Deliver(a.0, FromPlayer(a.1, note));
            && d.1
            && d.0.proxies == a.0.proxies[handle := Player.Handle(a.0.proxies[handle], note).p]
  {
  }

  /** After a proxy is destroyed, a late notification for its id is handled but changes nothing. */
  lemma LateNotificationDropped(f: Frame, handle: PlayerRef, note: Notification)
    requires Wired(f) && handle in f.proxies
    ensures var g := DetachPlayer(f, handle).0;
            Deliver(g, FromPlayer(f.proxies[handle].playerId, note)) == (g, true, [])
  {
  }

  /** A message of any other kind is not handled and changes nothing. */
  lemma OtherMessagesUnhandled(f: Frame, kind: nat)
    requires Wired(f)
    ensures Deliver(f, OtherKind(kind)) == (f, false, [])
  {
  }

  // ---------------------------------------------------------------------------
  // The process

  /** A renderer process: the static id counter and its frames by routing id. */
  datatype Process = Process(counter: bv32, frames: map<int, Frame>)

  /** Every frame is wired and known under its own routing id. */
  predicate Running(proc: Process) {
    forall rid :: rid in proc.frames ==> Wired(proc.frames[rid]) && proc.frames[rid].manager.routingId == rid
  }

  /** A process before its first frame; the counter starts at the process id. */
  function NewProcess(processId: bv32): (proc: Process)
    ensures Running(proc) && proc.frames == map[]
    ensures proc.counter == processId << 16 && proc.counter & LowMask == 0
  {
    Process(InitialCounter(processId), map[])
  }

  /** A new frame gets a manager of its own; the counter carries on. */
  function OpenFrame(proc: Process, routingId: int): (r: Process)
    requires Running(proc) && routingId !in proc.frames
    ensures Running(r) && r.counter == proc.counter
    ensures r.frames.Keys == proc.frames.Keys + {routingId}
    ensures r.frames[routingId].proxies == map[] && r.frames[routingId].manager.players == map[]
    ensures forall rid :: rid in proc.frames ==> r.frames[rid] == proc.frames[rid]
  {
    Process(proc.counter, proc.frames[routingId := NewFrame(routingId)])
  }

  /**
   * A proxy attaches in one frame: it takes the next id from the shared
   * counter, and every other frame is unchanged.
   */
  function AttachInFrame(proc: Process, routingId: int, handle: PlayerRef, hasDelegate: bool, bits: MediaBits)
    : (r: (Process, PlayerId))
    requires Running(proc) && routingId in proc.frames && handle !in proc.frames[routingId].proxies
    ensures Running(r.0)
    ensures r.1 == PlayerId(r.0.counter) && r.0.counter == NextId(proc.counter)
    ensures r.0.frames.Keys == proc.frames.Keys
    ensures GetMediaPlayer(r.0.frames[routingId].manager, r.1) == Some(handle)
    ensures r.0.frames[routingId].proxies[handle].playerId == r.1
    ensures forall rid :: rid in proc.frames && rid != routingId ==> r.0.frames[rid] == proc.frames[rid]
  {
    var a := AttachPlayer(proc.frames[routingId], proc.counter, handle, hasDelegate, bits);
    (Process(a.1.bits, proc.frames[routingId := a.0]), a.1)
  }

  /**
   * The first players of two frames of a fresh process get different ids:
   * the second frame's manager continues the first frame's count.
   */
  lemma FramesShareCounter(processId: bv32, rid1: int, rid2: int, h1: PlayerRef, h2: PlayerRef,
                           d1: bool, d2: bool, b1: MediaBits, b2: MediaBits)
    requires rid1 != rid2
    ensures var proc := OpenFrame(OpenFrame(NewProcess(processId), rid1), rid2);
            var a := AttachInFrame(proc, rid1, h1, d1, b1);
            var b := AttachInFrame(a.0, rid2, h2, d2, b2);
            && a.1 == PlayerId(Allocate(InitialCounter(processId), 1))
            && b.1 == PlayerId(Allocate(InitialCounter(processId), 2))
            && a.1 != b.1
  {
    var c := InitialCounter(processId);
    WindowPlayerIdsDistinct(c, 1, 2);
  }
}
