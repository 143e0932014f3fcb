/** The cached snapshot of one guild scheduled event: a record of fields that
    the entity builder fills in through one-field setters, a total order by
    start instant and then id, and id-only equality. */
module ScheduledEvents {
  import opened Wrappers
  import opened JavaLang
  import opened Entities

  /** Where an event takes place. */
  datatype EventType = StageInstance | Voice | External | UnknownType

  /** The lifecycle state of an event. */
  datatype EventStatus = Scheduled | Active | Completed | Canceled | UnknownStatus

  /** Every mutable field of an event, in one value, so that a setter can say
      what it changed and that nothing else did. */
  datatype Fields = Fields(
    name: Option<string>,
    description: Option<string>,
    startTime: Option<Instant>,
    endTime: Option<Instant>,
    image: Option<string>,
    status: Option<EventStatus>,
    eventType: Option<EventType>,
    creator: Option<User>,
    creatorId: Long,
    interestedUserCount: Int,
    location: Option<string>)

  /** The Java defaults of a freshly constructed event: null references and
      zero numbers. */
  const InitialFields := Fields(None, None, None, None, None, None, None, None, 0, 0, None)

  /** The parts of the cover image URL: the event id, the image hash and the
      file extension. The URL template itself is not part of this model. */
  datatype ImageRef = ImageRef(eventId: Long, hash: string, extension: string)

  /** Why `compareTo` throws: a null argument, an event of another guild, or
      a start time that was never set (the time-line comparator then
      dereferences null). */
  datatype CompareError = NullEvent | DifferentGuild | NullStartTime

  /** An animated image hash starts with "a_". */
  predicate IsAnimatedHash(hash: string)
  {
    |hash| >= 2 && hash[..2] == "a_"
  }

  /** Lexicographic comparison of (start instant, id) pairs. */
  function CompareKeys(start1: Instant, id1: Long, start2: Instant, id2: Long): (r: int)
    ensures r < 0 <==> start1 < start2 || (start1 == start2 && id1 < id2)
    ensures r == 0 <==> start1 == start2 && id1 == id2
    ensures r > 0 <==> start1 > start2 || (start1 == start2 && id1 > id2)
  {
    var byStart := Compare(start1, start2);
    if byStart == 0 then Compare(id1, id2) else byStart
  }

  class ScheduledEvent {
    const id: Long
    /** The owning guild, by id: guilds are equal exactly when their ids are. */
    const guild: Long

    var name: Option<string>
    var description: Option<string>
    var startTime: Option<Instant>
    var endTime: Option<Instant>
    var image: Option<string>
    var status: Option<EventStatus>
    var eventType: Option<EventType>
    var creator: Option<User>
    var creatorId: Long
    var interestedUserCount: Int
    var location: Option<string>

    function Snapshot(): Fields
      reads this
    {
      Fields(name, description, startTime, endTime, image, status, eventType,
             creator, creatorId, interestedUserCount, location)
    }

    constructor (id: Long, guild: Long)
      ensures this.id == id && this.guild == guild
      ensures Snapshot() == InitialFields
    {
      this.id := id;
      this.guild := guild;
      name, description, startTime, endTime := None, None, None, None;
      image, status, eventType, creator := None, None, None, None;
      creatorId, interestedUserCount, location := 0, 0, None;
    }

    method SetName(name: Option<string>) returns (r: ScheduledEvent)
      modifies this`name
      ensures r == this
      ensures Snapshot() == old(Snapshot()).(name := name)
    {
      this.name := name;
      r := this;
    }

    method SetType(eventType: Option<EventType>) returns (r: ScheduledEvent)
      modifies this`eventType
      ensures r == this
      ensures Snapshot() == old(Snapshot()).(eventType := eventType)
    {
      this.eventType := eventType;
      r := this;
    }

    method SetLocation(location: Option<string>) returns (r: ScheduledEvent)
      modifies this`location
      ensures r == this
      ensures Snapshot() == old(Snapshot()).(location := location)
    {
      this.location := location;
      r := this;
    }

    method SetDescription(description: Option<string>) returns (r: ScheduledEvent)
      modifies this`description
      ensures r == this
      ensures Snapshot() == old(Snapshot()).(description := description)
    {
      this.description := description;
      r := this;
    }

    method SetImage(image: Option<string>) returns (r: ScheduledEvent)
      modifies this`image
      ensures r == this
      ensures Snapshot() == old(Snapshot()).(image := image)
    {
      this.image := image;
      r := this;
    }

    method SetCreatorId(creatorId: Long) returns (r: ScheduledEvent)
      modifies this`creatorId
      ensures r == this
      ensures Snapshot() == old(Snapshot()).(creatorId := creatorId)
    {
      this.creatorId := creatorId;
      r := this;
    }

    method SetCreator(creator: Option<User>) returns (r: ScheduledEvent)
      modifies this`creator
      ensures r == this
      ensures Snapshot() == old(Snapshot()).(creator := creator)
    {
      this.creator := creator;
      r := this;
    }

    method SetStatus(status: Option<EventStatus>) returns (r: ScheduledEvent)
      modifies this`status
      ensures r == this
      ensures Snapshot() == old(Snapshot()).(status := status)
    {
      this.status := status;
      r := this;
    }

    method SetStartTime(startTime: Option<Instant>) returns (r: ScheduledEvent)
      modifies this`startTime
      ensures r == this
      ensures Snapshot() == old(Snapshot()).(startTime := startTime)
    {
      this.startTime := startTime;
      r := this;
    }

    method SetEndTime(endTime: Option<Instant>) returns (r: ScheduledEvent)
      modifies this`endTime
      ensures r == this
      ensures Snapshot() == old(Snapshot()).(endTime := endTime)
    {
      this.endTime := endTime;
      r := this;
    }

    method SetInterestedUserCount(count: Int) returns (r: ScheduledEvent)
      modifies this`interestedUserCount
      ensures r == this
      ensures Snapshot() == old(Snapshot()).(interestedUserCount := count)
    {
      this.interestedUserCount := count;
      r := this;
    }

    /** `getImageUrl`: absent exactly when no image hash is stored; otherwise
        built from this event's id and the hash, with extension "gif" for an
        animated hash and "png" for any other. */
    function ImageUrl(): (r: Option<ImageRef>)
      reads this
      ensures r.None? <==> image.None?
      ensures r.Some? ==> r.value.eventId == id && r.value.hash == image.value
      ensures r.Some? ==> r.value.extension in {"gif", "png"}
      ensures r.Some? ==> (r.value.extension == "gif" <==> IsAnimatedHash(image.value))
    {
      match image
      case None => None
      case Some(hash) => Some(ImageRef(id, hash, if IsAnimatedHash(hash) then "gif" else "png"))
    }

    /** `getChannel`: only stage and voice events have a channel, looked up
        in the guild by the stored location; every other event has none.
        `channelById` stands for the guild's channel lookup. */
    function Channel(channelById: Option<string> -> Option<AudioChannel>): (r: Option<AudioChannel>)
      reads this
      ensures eventType !in {Some(StageInstance), Some(Voice)} ==> r.None?
      ensures eventType in {Some(StageInstance), Some(Voice)} ==> r == channelById(location)
    {
      if eventType == Some(StageInstance) || eventType == Some(Voice) then channelById(location)
      else None
    }

    /** `compareTo`: throws for a null argument, for an event of another
        guild and for a missing start time; otherwise orders by start instant
        and then by id. */
    function CompareTo(other: ScheduledEvent?): (r: Result<int, CompareError>)
      reads this, other
      ensures other == null <==> r == Failure(NullEvent)
      ensures other != null && other.guild != guild <==> r == Failure(DifferentGuild)
      ensures r.Success? <==>
                other != null && other.guild == guild && startTime.Some? && other.startTime.Some?
      ensures r.Success? ==>
                && (r.value < 0 <==>
                      || startTime.value < other.startTime.value
                      || (startTime.value == other.startTime.value && id < other.id))
                && (r.value == 0 <==> startTime.value == other.startTime.value && id == other.id)
    {
      if other == null then Failure(NullEvent)
      else if guild != other.guild then Failure(DifferentGuild)
      else if startTime.None? || other.startTime.None? then Failure(NullStartTime)
      else Success(CompareKeys(startTime.value, id, other.startTime.value, other.id))
    }

    /** `equals`: another event is equal exactly when it has the same id,
        whatever its other fields hold; null is never equal. */
    function Equals(o: ScheduledEvent?): (r: bool)
      ensures r <==> o != null && o.id == id
    {
      if o == this then true
      else if o == null then false
      else id == o.id
    }

    /** `hashCode`: `Long.hashCode` of the id, so it depends on the id alone;
        a small non-negative id is its own hash. */
    function HashCode(): (h: Int)
      ensures 0 <= id < 0x8000_0000 ==> h == id
    {
      LongHashCode(id)
    }
  }

  /** The order is antisymmetric in sign: swapping the arguments negates
      the sign of the result. */
  lemma CompareToAntisymmetric(a: ScheduledEvent, b: ScheduledEvent)
    requires a.CompareTo(b).Success?
    ensures b.CompareTo(a).Success?
    ensures a.CompareTo(b).value < 0 <==> b.CompareTo(a).value > 0
    ensures a.CompareTo(b).value == 0 <==> b.CompareTo(a).value == 0
  {
  }

  /** The order is transitive. */
  lemma CompareToTransitive(a: ScheduledEvent, b: ScheduledEvent, c: ScheduledEvent)
    requires a.CompareTo(b).Success? && b.CompareTo(c).Success?
    requires a.CompareTo(b).value <= 0 && b.CompareTo(c).value <= 0
    ensures a.CompareTo(c).Success? && a.CompareTo(c).value <= 0
    ensures a.CompareTo(b).value < 0 || b.CompareTo(c).value < 0 ==> a.CompareTo(c).value < 0
  {
  }

  /** Two events of one guild compare as equal only when they are equal
      under `equals`. */
  lemma CompareZeroImpliesEquals(a: ScheduledEvent, b: ScheduledEvent)
    requires a.CompareTo(b).Success?
    ensures a.CompareTo(b).value == 0 ==> a.Equals(b)
  {
  }

  /** The converse fails, so the order is not consistent with `equals`:
      two snapshots of one event (same id) with different start times are
      equal, yet compare as unequal. */
  lemma EqualsDoesNotImplyCompareZero(a: ScheduledEvent, b: ScheduledEvent)
    requires a.id == b.id && a.guild == b.guild
    requires a.startTime == Some(10) && b.startTime == Some(20)
    ensures a.Equals(b)
    ensures a.CompareTo(b) == Success(-1)
  {
  }

  /** Equal events hash equally. */
  lemma EqualEventsHashEqually(a: ScheduledEvent, b: ScheduledEvent)
    requires a.Equals(b)
    ensures a.HashCode() == b.HashCode()
  {
  }
}
