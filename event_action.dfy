/** The builder that creates a guild scheduled event: setters validate one
    argument and stage one field, and `finalizeData` turns the staged fields
    into the request payload. The model follows the implementation; where it
    departs from what the interface documents, a lemma below exhibits an
    input that shows the difference. */
module EventActions {
  import opened Wrappers
  import opened JavaLang
  import opened Entities
  import opened EventActionContract

  /** A payload value. Instants stand for their ISO-8601 text; the
      formatting itself is not modelled. */
  datatype Value = IntValue(i: int) | StringValue(s: string) | LongValue(l: Long) | TimeValue(t: Instant)

  /** Every key `finalizeData` can write. */
  const PAYLOAD_KEYS: set<string> :=
    {"entity_type", "privacy_level", "name", "description", "channel_id",
     "scheduled_start_time", "scheduled_end_time"}

  /** The builder's staged fields; null where nothing was staged. */
  datatype Staged = Staged(
    name: Option<string>,
    description: Option<string>,
    location: Option<AudioChannel>,
    startTime: Option<Instant>,
    endTime: Option<Instant>)

  const EmptyStaged := Staged(None, None, None, None, None)

  /** `setName`: `notEmpty`, then `notLonger(100)`; on success the argument
      is staged as given, untrimmed, and nothing else changes. */
  function StageName(s: Staged, name: Option<string>): (r: Result<Staged, CheckError>)
    ensures r.Success? <==> name.Some? && name.value != [] && Utf16Length(name.value) <= MAX_NAME_LENGTH
    ensures r.Success? ==> r.value == s.(name := name)
    ensures r.Failure? ==> r.error == if name.None? then NullArgument
                                      else if name.value == [] then EmptyArgument
                                      else TooLong(MAX_NAME_LENGTH)
  {
    if NotEmpty(name).Some? then Failure(NotEmpty(name).value)
    else if NotLonger(name.value, MAX_NAME_LENGTH).Some? then Failure(TooLong(MAX_NAME_LENGTH))
    else Success(s.(name := name))
  }

  /** `setDescription`: `notEmpty`, then `notLonger(1000)`; on success the
      description field takes the currently staged NAME, not the argument. */
  function StageDescription(s: Staged, description: Option<string>): (r: Result<Staged, CheckError>)
    ensures r.Success? <==>
              description.Some? && description.value != [] && Utf16Length(description.value) <= MAX_DESCRIPTION_LENGTH
    ensures r.Success? ==> r.value == s.(description := s.name)
    ensures r.Failure? ==> r.error == if description.None? then NullArgument
                                      else if description.value == [] then EmptyArgument
                                      else TooLong(MAX_DESCRIPTION_LENGTH)
  {
    if NotEmpty(description).Some? then Failure(NotEmpty(description).value)
    else if NotLonger(description.value, MAX_DESCRIPTION_LENGTH).Some? then Failure(TooLong(MAX_DESCRIPTION_LENGTH))
    else Success(s.(description := s.name))
  }

  /** The payload `finalizeData` builds: the two constant keys, then one
      key per non-null staged field. */
  function Payload(s: Staged): (p: map<string, Value>)
    ensures p.Keys <= PAYLOAD_KEYS
    ensures "entity_type" in p && p["entity_type"] == IntValue(2)
    ensures "privacy_level" in p && p["privacy_level"] == IntValue(2)
    ensures "name" in p <==> s.name.Some?
    ensures "description" in p <==> s.description.Some?
    ensures "channel_id" in p <==> s.location.Some?
    ensures "scheduled_start_time" in p <==> s.startTime.Some?
    ensures "scheduled_end_time" in p <==> s.endTime.Some?
    ensures s.name.Some? ==> p["name"] == StringValue(s.name.value)
    ensures s.description.Some? ==> p["description"] == StringValue(s.description.value)
    ensures s.location.Some? ==> p["channel_id"] == LongValue(s.location.value.id)
    ensures s.startTime.Some? ==> p["scheduled_start_time"] == TimeValue(s.startTime.value)
    ensures s.endTime.Some? ==> p["scheduled_end_time"] == TimeValue(s.endTime.value)
  {
    var fixed := map["entity_type" := IntValue(2), "privacy_level" := IntValue(2)];
    var withName := if s.name.Some? then fixed["name" := StringValue(s.name.value)] else fixed;
    var withDescription :=
      if s.description.Some? then withName["description" := StringValue(s.description.value)] else withName;
    var withChannel :=
      if s.location.Some? then withDescription["channel_id" := LongValue(s.location.value.id)] else withDescription;
    var withStart :=
      if s.startTime.Some? then withChannel["scheduled_start_time" := TimeValue(s.startTime.value)] else withChannel;
    if s.endTime.Some? then withStart["scheduled_end_time" := TimeValue(s.endTime.value)] else withStart
  }

  class EventAction {
    const guild: Long
    var name: Option<string>
    var description: Option<string>
    var location: Option<AudioChannel>
    var startTime: Option<Instant>
    var endTime: Option<Instant>

    function State(): Staged
      reads this
    {
      Staged(name, description, location, startTime, endTime)
    }

    constructor (guild: Long)
      ensures this.guild == guild && State() == EmptyStaged
    {
      this.guild := guild;
      name, description, location, startTime, endTime := None, None, None, None, None;
    }

    method SetName(name: Option<string>) returns (r: Result<EventAction, CheckError>)
      modifies this`name
      ensures StageName(old(State()), name).Success? ==> r == Success(this) && State() == StageName(old(State()), name).value
      ensures StageName(old(State()), name).Failure? ==> r == Failure(StageName(old(State()), name).error) && State() == old(State())
    {
      var notEmpty := NotEmpty(name);
      if notEmpty.Some? {
        return Failure(notEmpty.value);
      }
      var notLonger := NotLonger(name.value, MAX_NAME_LENGTH);
      if notLonger.Some? {
        return Failure(notLonger.value);
      }
      this.name := name;
      r := Success(this);
    }

    method SetDescription(description: Option<string>) returns (r: Result<EventAction, CheckError>)
      modifies this`description
      ensures StageDescription(old(State()), description).Success? ==>
                r == Success(this) && State() == StageDescription(old(State()), description).value
      ensures StageDescription(old(State()), description).Failure? ==>
                r == Failure(StageDescription(old(State()), description).error) && State() == old(State())
    {
      var notEmpty := NotEmpty(description);
      if notEmpty.Some? {
        return Failure(notEmpty.value);
      }
      var notLonger := NotLonger(description.value, MAX_DESCRIPTION_LENGTH);
      if notLonger.Some? {
        return Failure(notLonger.value);
      }
      this.description := name;
      r := Success(this);
    }

    /** `setLocation(StageChannel)`: replaces the staged channel. */
    method SetStageLocation(channel: AudioChannel) returns (r: EventAction)
      requires channel.kind == StageChannel
      modifies this`location
      ensures r == this && State() == old(State()).(location := Some(channel))
    {
      location := Some(channel);
      r := this;
    }

    /** `setLocation(VoiceChannel)`: replaces the staged channel. */
    method SetVoiceLocation(channel: AudioChannel) returns (r: EventAction)
      requires channel.kind == VoiceChannel
      modifies this`location
      ensures r == this && State() == old(State()).(location := Some(channel))
    {
      location := Some(channel);
      r := this;
    }

    /** `setLocation(String)`: a stub that stages nothing and returns null
        (it may change nothing: it has no modifies clause). */
    method SetExternalLocation(place: string) returns (r: EventAction?)
      ensures r == null
    {
      r := null;
    }

    /** `setStartTime`: stores its argument, null included, with no check. */
    method SetStartTime(startTime: Option<Instant>) returns (r: EventAction)
      modifies this`startTime
      ensures r == this && State() == old(State()).(startTime := startTime)
    {
      this.startTime := startTime;
      r := this;
    }

    /** `setEndTime`: stores its argument with no check; null clears it. */
    method SetEndTime(endTime: Option<Instant>) returns (r: EventAction)
      modifies this`endTime
      ensures r == this && State() == old(State()).(endTime := endTime)
    {
      this.endTime := endTime;
      r := this;
    }

    /** `finalizeData`: reads the staged fields only (no modifies clause) and
        returns their payload. */
    method FinalizeData() returns (p: map<string, Value>)
      ensures p == Payload(State())
      ensures p.Keys == {"entity_type", "privacy_level"} + StagedKeys(State())
    {
      p := map["entity_type" := IntValue(2), "privacy_level" := IntValue(2)];
      if name.Some? {
        p := p["name" := StringValue(name.value)];
      }
      if description.Some? {
        p := p["description" := StringValue(description.value)];
      }
      if location.Some? {
        p := p["channel_id" := LongValue(location.value.id)];
      }
      if startTime.Some? {
        p := p["scheduled_start_time" := TimeValue(startTime.value)];
      }
      if endTime.Some? {
        p := p["scheduled_end_time" := TimeValue(endTime.value)];
      }
    }
  }

  /** The payload keys of the non-null staged fields. */
  function StagedKeys(s: Staged): set<string>
  {
    (if s.name.Some? then {"name"} else {})
    + (if s.description.Some? then {"description"} else {})
    + (if s.location.Some? then {"channel_id"} else {})
    + (if s.startTime.Some? then {"scheduled_start_time"} else {})
    + (if s.endTime.Some? then {"scheduled_end_time"} else {})
  }

  /** The two stage/voice `setLocation` calls replace the staged channel:
      the last call wins, whatever was staged before. */
  lemma LastLocationWins(s: Staged, first: AudioChannel, second: AudioChannel)
    ensures Payload(s.(location := Some(first)).(location := Some(second)))["channel_id"] == LongValue(second.id)
  {
  }

  /** Every name the interface accepts is accepted and staged verbatim. */
  lemma DocumentedNameIsStaged(s: Staged, name: Option<string>)
    requires NameAccepted(name)
    ensures StageName(s, name) == Success(s.(name := name))
  {
  }

  /** The implementation does not reject blank names: "   " is staged though
      the interface says `setName` throws for it. */
  lemma BlankNameIsStaged(s: Staged)
    ensures !NameAccepted(Some("   "))
    ensures StageName(s, Some("   ")).Success?
  {
    assert IsWhitespace("   "[0]);
  }

  /** `setDescription` stages the current name, not its argument. */
  lemma DescriptionTakesName()
    ensures StageDescription(EmptyStaged.(name := Some("Launch")), Some("Details")).Success?
    ensures StageDescription(EmptyStaged.(name := Some("Launch")), Some("Details")).value.description == Some("Launch")
    ensures Payload(StageDescription(EmptyStaged.(name := Some("Launch")), Some("Details")).value)["description"]
            == StringValue("Launch")
  {
  }

  /** A null description is documented as "no description" but rejected;
      before any name is staged, an accepted description clears the field. */
  lemma NullDescriptionRejected(s: Staged)
    ensures DescriptionAccepted(None) && StageDescription(s, None) == Failure(NullArgument)
    ensures StageDescription(EmptyStaged, Some("Details")).Success?
    ensures "description" !in Payload(StageDescription(EmptyStaged, Some("Details")).value)
  {
  }

  /** An empty description is rejected, though the interface lets
      `setDescription` throw only for an over-long one. */
  lemma EmptyDescriptionRejected(s: Staged)
    ensures DescriptionAccepted(Some(""))
    ensures StageDescription(s, Some("")) == Failure(EmptyArgument)
  {
  }

  /** No ordering check: a start after the staged end and an end before
      the staged start are both staged and sent, though the interface says
      each throws. A null start, which the interface also says throws, is
      staged too and then leaves the start key out of the payload. */
  lemma TimesAreNotOrdered()
    ensures !StartTimeAccepted(Some(20), Some(10))
    ensures !EndTimeAccepted(Some(20), Some(10))
    ensures var s := EmptyStaged.(startTime := Some(20)).(endTime := Some(10));
            Payload(s)["scheduled_start_time"] == TimeValue(20) && Payload(s)["scheduled_end_time"] == TimeValue(10)
    ensures !StartTimeAccepted(None, Some(10))
    ensures var s := EmptyStaged.(startTime := Some(20)).(endTime := Some(10)).(startTime := None);
            "scheduled_start_time" !in Payload(s) && Payload(s)["scheduled_end_time"] == TimeValue(10)
  {
  }

  /** An end time is documented as possible only for external events, yet
      a stage or voice builder stages it and sends it. */
  lemma EndTimeSentForChannelEvent(ch: AudioChannel)
    ensures !Creatable(Some("Launch"), Some(InChannel(ch)), Some(0), Some(10))
    ensures Payload(EmptyStaged.(location := Some(ch)).(endTime := Some(10)))["scheduled_end_time"] == TimeValue(10)
  {
  }

  /** No documented external event can be sent. The staged location can
      only be a channel, because the external `setLocation` stages nothing;
      every payload carries the voice code 2, never the external code 3;
      and no payload key can carry an external place. */
  lemma ExternalEventNotExpressible(s: Staged, place: string)
    ensures Payload(s)["entity_type"] != IntValue(EntityTypeCode(TypeOf(ExternalPlace(place))))
    ensures "entity_metadata" !in Payload(s)
  {
  }

  /** `entity_type` is always 2, the voice code, so a stage-channel event
      is sent as a voice event, and nothing staged can carry an external
      place: the external `setLocation` stages nothing. */
  lemma EntityTypeIsAlwaysVoice(s: Staged, channel: AudioChannel)
    requires channel.kind == StageChannel
    ensures EntityTypeCode(TypeOf(InChannel(channel))) == 1
    ensures Payload(s.(location := Some(channel)))["entity_type"] == IntValue(2)
    ensures EntityTypeCode(VoiceType) == 2 && EntityTypeCode(ExternalType) == 3
  {
  }

  /** `finalizeData` does not enforce the creation requirements: with
      nothing staged the payload holds only the two constant keys. */
  lemma NoCreationCheck()
    ensures !Creatable(None, None, None, None)
    ensures Payload(EmptyStaged).Keys == {"entity_type", "privacy_level"}
  {
  }
}
