/**
 * The IPC vocabulary between the renderer-side proxy and the remote player:
 * MediaPlayerHostMsg_* travel to the remote player, MediaPlayerMsg_* come back.
 * Every message is routed by the owning frame and keyed by the player id.
 */
module Messages {
  import opened MediaTypes

  /** A player id: the bit pattern of the C++ int the source uses. */
  datatype PlayerId = PlayerId(bits: bv32)

  /** content::MediaPlayerInitConfig, fields in their serialised order. */
  datatype InitConfig = InitConfig(
    playerType: PlayerType,
    url: string,
    mimeType: string,
    demuxerClientId: int,
    hasEncryptedListenerOrCdm: bool,
    isAudio: int,
    nodeId: int)

  /** The MediaPlayerHostMsg_* messages (renderer to remote player). */
  datatype HostMsg =
    | Init(config: InitConfig)
    | EnteredFullscreen
    | ExitedFullscreen
    | DeInit
    | Play
    | Pause(isMediaRelatedAction: bool)
    | Suspend
    | Resume
    | Activate
    | Deactivate
    | SetVolume(volume: real)
    | SetRate(rate: real)
    | SetGeometry(rect: RectF)
    | Seek(time: Micros)

  /** A routed outbound message as it is handed to the transport. */
  datatype Envelope = Envelope(routingId: int, playerId: PlayerId, msg: HostMsg)

  /** The MediaPlayerMsg_* messages (remote player to renderer), minus the id. */
  datatype Notification =
    | MediaDataChanged(width: int, height: int, media: bv32)
    | DurationChanged(duration: Micros)
    | TimeUpdate(time: Micros)
    | BufferUpdate(percentage: int)
    | ReadyStateChange(readyState: ReadyState)
    | NetworkStateChange(networkState: NetworkState)
    | TimeChanged
    | PauseStateChanged(paused: bool)
    | SeekComplete
    | SeekRequest(time: Micros)
    | PlayerSuspend(isPreempted: bool)
    | PlayerResumed(isPreempted: bool)
    | PlayerDestroyed

  /**
   * A message delivered to the frame's manager: one of the player
   * notifications above, or a message of some other kind routed to the same
   * frame (identified only by its IPC type number).
   */
  datatype IpcMessage =
    | FromPlayer(playerId: PlayerId, note: Notification)
    | OtherKind(messageType: nat)
}
