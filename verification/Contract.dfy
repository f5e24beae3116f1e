/** The closed enumerations of the service contract, and the stock option type. */
module Contract {

  type Id = string

  datatype Option<+T> = None | Some(value: T)

  datatype Intent =
    | Thumbnail | Grid | Lightbox
    | Poster | Loop | Detail
    | Original
    | Zoom1 | Zoom2 | Zoom3

  datatype Kind = Image | Video | Audio | Document

  datatype Device = Mobile | Desktop

  datatype ReasonCode =
    | AuthoredBitrateExceeded
    | AuthoredCodecUnsupported
    | AuthoredLoopTooLong
    | AuthoredResolutionExceeded
    | AuthoredTooLarge
    | Deleted
    | ExceededDurationCeiling
    | ExceededSizeCeiling
    | FailedReason
    | NotDerivedReason
    | PendingReason
    | Unauthorized
    | UnsupportedFormat

  /** Lower-case letters, digits and underscores: no character that separates anything anywhere. */
  predicate Bare(s: string) {
    forall k | 0 <= k < |s| :: s[k] == '_' || 'a' <= s[k] <= 'z' || '0' <= s[k] <= '9'
  }

  /** The wire name of an intent: it is a path segment of rendition keys and a field of signed messages. */
  function IntentName(intent: Intent): (name: string)
    ensures Bare(name) && |name| >= 4
  {
    match intent
    case Thumbnail => "thumbnail"
    case Grid => "grid"
    case Lightbox => "lightbox"
    case Poster => "poster"
    case Loop => "loop"
    case Detail => "detail"
    case Original => "original"
    case Zoom1 => "zoom_1"
    case Zoom2 => "zoom_2"
    case Zoom3 => "zoom_3"
  }
}
