/**
 * Value types shared by the media player proxy and its manager: times,
 * rectangles, and the player-facing readiness and network enumerations.
 */
module MediaTypes {

  /** A base::TimeDelta, counted in whole microseconds. */
  type Micros = int

  const MicrosPerSecond: real := 1000000.0

  /** TimeDelta::InSecondsF. */
  function Seconds(t: Micros): real {
    t as real / MicrosPerSecond
  }

  /** gfx::Rect: integer placement reported by the compositor. */
  datatype Rect = Rect(x: int, y: int, width: int, height: int)

  /** gfx::RectF: the placement sent to the remote player. */
  datatype RectF = RectF(x: real, y: real, width: real, height: real)

  /** The static_cast<gfx::RectF> of a gfx::Rect. */
  function ToRectF(r: Rect): RectF {
    RectF(r.x as real, r.y as real, r.width as real, r.height as real)
  }

  /** gfx::Size. */
  datatype Size = Size(width: int, height: int)

  /** One blink::WebTimeRange, in seconds. */
  datatype TimeRange = TimeRange(start: real, end: real)

  /** blink::WebMediaPlayer::ReadyState, in its declared order. */
  datatype ReadyState =
    | HaveNothing
    | HaveMetadata
    | HaveCurrentData
    | HaveFutureData
    | HaveEnoughData
  {
    /** The enumerator's numeric value, which is what `<` compares. */
    function Rank(): nat {
      match this
      case HaveNothing => 0
      case HaveMetadata => 1
      case HaveCurrentData => 2
      case HaveFutureData => 3
      case HaveEnoughData => 4
    }
  }

  /** blink::WebMediaPlayer::NetworkState. */
  datatype NetworkState =
    | NetworkEmpty
    | NetworkIdle
    | NetworkLoading
    | NetworkLoaded
    | NetworkFormatError
    | NetworkNetworkError
    | NetworkDecodeError

  /** MediaPlayerHostMsg_Initialize_Type: the values the proxy uses. */
  datatype PlayerType = TypeNone | TypeUrlWithVideoHole

  /** blink::WebMediaPlayer::LoadType. */
  datatype LoadType = LoadTypeUrl | LoadTypeMediaSource | LoadTypeMediaStream

  /**
   * The MediaType::Audio and MediaType::Video bit values with which the remote
   * player encodes track presence in a media-data notification.
   */
  datatype MediaBits = MediaBits(audio: bv32, video: bv32)
}
