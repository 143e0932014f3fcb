/** What the `GuildScheduledEventAction` interface documents for its setters
    and for the events it creates. The interface has no bodies; these
    predicates state its promises so that the implementation can be held
    against them. */
module EventActionContract {
  import opened Wrappers
  import opened JavaLang
  import opened Entities

  /** A documented event location: a stage channel, a voice channel or a
      free-text external place. */
  datatype Location = InChannel(channel: AudioChannel) | ExternalPlace(place: string)

  /** The event type a location makes: stage channel, voice channel or
      external place. */
  datatype DocumentedType = StageInstanceType | VoiceType | ExternalType

  function TypeOf(location: Location): (t: DocumentedType)
    ensures t == ExternalType <==> location.ExternalPlace?
    ensures t == StageInstanceType <==> location.InChannel? && location.channel.kind == StageChannel
  {
    match location
    case ExternalPlace(_) => ExternalType
    case InChannel(c) => if c.kind == StageChannel then StageInstanceType else VoiceType
  }

  /** The `entity_type` code Discord's API gives each event type. */
  function EntityTypeCode(t: DocumentedType): (code: int)
    ensures 1 <= code <= 3
  {
    match t
    case StageInstanceType => 1
    case VoiceType => 2
    case ExternalType => 3
  }

  /** `setName` accepts a name that is non-null, non-empty, not blank and
      at most `MAX_NAME_LENGTH` characters long. */
  predicate NameAccepted(name: Option<string>): (ok: bool)
    ensures ok <==> NotEmpty(name).None? && NotBlank(name).None? && NotLonger(name.value, MAX_NAME_LENGTH).None?
  {
    name.Some? && name.value != [] && !IsBlank(name.value) && Utf16Length(name.value) <= MAX_NAME_LENGTH
  }

  /** `setDescription` accepts null ("no description") and any description
      of at most `MAX_DESCRIPTION_LENGTH` characters. */
  predicate DescriptionAccepted(description: Option<string>): (ok: bool)
    ensures ok <==> description.None? || NotLonger(description.value, MAX_DESCRIPTION_LENGTH).None?
    ensures description == Some([]) ==> ok
  {
    description.None? || Utf16Length(description.value) <= MAX_DESCRIPTION_LENGTH
  }

  /** `setStartTime` rejects a null start and a start after the end time. */
  predicate StartTimeAccepted(start: Option<Instant>, end: Option<Instant>): (ok: bool)
    ensures ok <==> start.Some? && (end.None? || Compare(start.value, end.value) <= 0)
  {
    start.Some? && (end.None? || start.value <= end.value)
  }

  /** `setEndTime` rejects an end chronologically before the start time. */
  predicate EndTimeAccepted(start: Option<Instant>, end: Option<Instant>): (ok: bool)
    ensures !ok <==> end.Some? && start.Some? && Compare(end.value, start.value) < 0
  {
    end.None? || start.None? || start.value <= end.value
  }

  /** A created event needs a name, a location and a start time; an
      external event also needs an end time, and only an external event may
      have one. */
  predicate Creatable(name: Option<string>, location: Option<Location>, start: Option<Instant>, end: Option<Instant>): (ok: bool)
    ensures ok ==> name.Some? && location.Some? && start.Some?
    ensures ok ==> (TypeOf(location.value) == ExternalType <==> end.Some?)
  {
    && name.Some? && location.Some? && start.Some?
    && (location.value.ExternalPlace? <==> end.Some?)
  }
}
