/** The manager that updates an existing scheduled event. `setName` is the
    only implemented setter: it validates, trims, stores the name and marks
    NAME dirty. Every other setter is a stub that changes nothing and returns
    null. `getGuildScheduledEvent` refreshes the held event from the cache. */
module EventManagers {
  import opened Wrappers
  import opened JavaLang
  import opened Entities
  import opened ScheduledEvents

  /** The manager's dirty-field tags; the bitmask `set` becomes a set of
      tags, and `set |= NAME` becomes adding `NameField`. */
  datatype Field = NameField | DescriptionField | LocationField | StartTimeField
                 | EndTimeField | ImageField | StatusField

  /** The checks and the trim of `setName`, in the order the code makes
      them: `notBlank` on the argument, then `trim`, then `notEmpty` and
      `notLonger(100)` on the trimmed name. */
  function CheckedName(name: Option<string>): (r: Result<string, CheckError>)
    ensures r.Success? <==>
              name.Some? && !IsBlank(name.value) && Trim(name.value) != [] && Utf16Length(Trim(name.value)) <= MAX_NAME_LENGTH
    ensures r.Success? ==> r.value == Trim(name.value)
    ensures r.Success? ==> !IsTrimmable(r.value[0]) && !IsTrimmable(r.value[|r.value| - 1])
    ensures r.Failure? ==> r.error == if name.None? then NullArgument
                                      else if IsBlank(name.value) then BlankArgument
                                      else if Trim(name.value) == [] then EmptyArgument
                                      else TooLong(MAX_NAME_LENGTH)
  {
    if NotBlank(name).Some? then Failure(NotBlank(name).value)
    else
      var trimmed := Trim(name.value);
      if NotEmpty(Some(trimmed)).Some? then Failure(EmptyArgument)
      else if NotLonger(trimmed, MAX_NAME_LENGTH).Some? then Failure(TooLong(MAX_NAME_LENGTH))
      else Success(trimmed)
  }

  /** The manager state `setName` touches. */
  datatype NameState = NameState(name: Option<string>, dirty: set<Field>)

  /** `setName` on the manager state: on success the trimmed name is stored
      and NAME joins the dirty set; on failure nothing changes, because all
      checks come before the assignments. */
  function SetNameStep(s: NameState, name: Option<string>): (r: Result<NameState, CheckError>)
    ensures r.Success? <==> CheckedName(name).Success?
    ensures r.Success? ==> r.value.name == Some(Trim(name.value))
    ensures r.Success? ==> r.value.dirty == s.dirty + {NameField}
    ensures r.Failure? ==> r.error == CheckedName(name).error
  {
    match CheckedName(name)
    case Failure(e) => Failure(e)
    case Success(trimmed) => Success(NameState(Some(trimmed), s.dirty + {NameField}))
  }

  /** Calling `setName` twice with the same argument leaves the same state
      as calling it once. */
  lemma SetNameIdempotent(s: NameState, name: Option<string>)
    requires SetNameStep(s, name).Success?
    ensures SetNameStep(SetNameStep(s, name).value, name) == SetNameStep(s, name)
  {
  }

  /** A successful `setName` leaves every dirty bit other than NAME as it
      was. */
  lemma SetNameKeepsOtherBits(s: NameState, name: Option<string>, f: Field)
    requires SetNameStep(s, name).Success? && f != NameField
    ensures f in SetNameStep(s, name).value.dirty <==> f in s.dirty
  {
  }

  /** A stored name that is not blank passes the checks again and is
      stored unchanged. */
  lemma StoredNameIsFixedPoint(name: Option<string>)
    requires CheckedName(name).Success? && !IsBlank(CheckedName(name).value)
    ensures CheckedName(Some(CheckedName(name).value)) == CheckedName(name)
  {
    TrimIdempotent(name.value);
  }

  /** Blankness is tested before trimming, so a stored name can itself be
      blank: a NUL followed by an ideographic space is accepted and stored
      as the lone space, which `setName` then rejects as blank. */
  lemma StoredNameCanBeBlank()
    ensures CheckedName(Some("\U{0}\U{3000}")) == Success("\U{3000}")
    ensures CheckedName(Some("\U{3000}")) == Failure(BlankArgument)
  {
    var s := "\U{0}\U{3000}";
    assert !IsWhitespace(s[0]);
    assert s[1..] == "\U{3000}";
    StripsFixClean("\U{3000}");
  }

  /** The length limit applies to the trimmed name: one hundred letters
      padded with a space on each side are accepted. */
  lemma LimitAppliesAfterTrim(core: string)
    requires |core| == MAX_NAME_LENGTH
    requires forall i :: 0 <= i < |core| ==> core[i] == 'a'
    ensures Utf16Length(" " + core + " ") > MAX_NAME_LENGTH
    ensures CheckedName(Some(" " + core + " ")) == Success(core)
  {
    var padded := " " + core + " ";
    BasicPlaneLength(core);
    assert padded[1..] == core + " ";
    StripsFixClean(core);
    assert (core + " ")[..|core|] == core;
    assert StripLeading(padded) == StripLeading(core + " ");
    assert StripLeading(core + " ") == core + " ";
    assert StripTrailing(core + " ") == StripTrailing(core);
    assert !IsWhitespace(padded[1]);
  }

  class EventManager {
    var event: ScheduledEvent
    var name: Option<string>
    var dirty: set<Field>

    function State(): NameState
      reads this
    {
      NameState(name, dirty)
    }

    constructor (event: ScheduledEvent)
      ensures this.event == event && State() == NameState(None, {})
    {
      this.event := event;
      name, dirty := None, {};
    }

    /** `getGuildScheduledEvent`: refreshes the held event from the guild's
        cache, `guildEvents`, when the cache has an event with its id, and
        returns the held event. */
    method GetScheduledEvent(guildEvents: map<Long, ScheduledEvent>) returns (r: ScheduledEvent)
      modifies this`event
      ensures old(event.id) in guildEvents ==> event == guildEvents[old(event.id)]
      ensures old(event.id) !in guildEvents ==> event == old(event)
      ensures (forall k :: k in guildEvents ==> guildEvents[k].id == k) ==> event.id == old(event.id)
      ensures r == event
    {
      if event.id in guildEvents {
        event := guildEvents[event.id];
      }
      r := event;
    }

    method SetName(name: Option<string>) returns (r: Result<EventManager, CheckError>)
      modifies this`name, this`dirty
      ensures SetNameStep(old(State()), name).Success? ==>
                r == Success(this) && State() == SetNameStep(old(State()), name).value
      ensures SetNameStep(old(State()), name).Failure? ==>
                r == Failure(SetNameStep(old(State()), name).error) && State() == old(State())
    {
      var notBlank := NotBlank(name);
      if notBlank.Some? {
        return Failure(notBlank.value);
      }
      var trimmed := Trim(name.value);
      var notEmpty := NotEmpty(Some(trimmed));
      if notEmpty.Some? {
        return Failure(notEmpty.value);
      }
      var notLonger := NotLonger(trimmed, MAX_NAME_LENGTH);
      if notLonger.Some? {
        return Failure(notLonger.value);
      }
      this.name := Some(trimmed);
      dirty := dirty + {NameField};
      r := Success(this);
    }

    /** `setDescription`: a stub; changes nothing and returns null. */
    method SetDescription(description: Option<string>) returns (r: EventManager?)
      ensures r == null
    {
      r := null;
    }

    /** `setLocation(StageChannel)`: a stub; changes nothing and returns null. */
    method SetStageLocation(channel: AudioChannel) returns (r: EventManager?)
      ensures r == null
    {
      r := null;
    }

    /** `setLocation(VoiceChannel)`: a stub; changes nothing and returns null. */
    method SetVoiceLocation(channel: AudioChannel) returns (r: EventManager?)
      ensures r == null
    {
      r := null;
    }

    /** `setLocation(String)`: a stub; changes nothing and returns null. */
    method SetExternalLocation(place: string) returns (r: EventManager?)
      ensures r == null
    {
      r := null;
    }

    /** `setStartTime`: a stub; changes nothing and returns null. */
    method SetStartTime(startTime: Option<Instant>) returns (r: EventManager?)
      ensures r == null
    {
      r := null;
    }

    /** `setEndTime`: a stub; changes nothing and returns null. */
    method SetEndTime(endTime: Option<Instant>) returns (r: EventManager?)
      ensures r == null
    {
      r := null;
    }

    /** `setStatus`: a stub; changes nothing and returns null. */
    method SetStatus(status: EventStatus) returns (r: EventManager?)
      ensures r == null
    {
      r := null;
    }
  }
}
