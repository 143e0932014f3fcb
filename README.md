# Guild scheduled events (JDA) in Dafny

This project models the scheduled-event slice of the JDA Discord client library:

- the cached event entity, with its one-field setters, its order by start instant and then id, its id-only equality and hash, and two derived views (the cover image URL and the audio channel);
- the creation builder `GuildScheduledEventActionImpl`, whose setters validate one argument and stage one field, and whose `finalizeData` turns the staged fields into the request payload;
- what the `GuildScheduledEventAction` interface documents for that builder, as separate predicates;
- the update manager, where `setName` is the only implemented setter;
- the two page handlers for interested users and interested members;
- the gateway handler that removes a deleted event from the cache.

The model follows the code as written. The code departs from its own documentation in several places. Each departure is a lemma that exhibits an input where the two differ (see "Documentation and code disagree" below).

Conventions:

- Java `null` is `Option.None`.
- An exception thrown by an argument check is a `Result.Failure` carrying the failing check.
- Setters return the object itself. The stubs that return `null` return a nullable reference.
- `OffsetDateTime` values are integer instants. The entity compares them on the time line. The builder formats them as ISO-8601 text, which also carries the offset; the model keeps only the instant (see "Left out").
- Ids are 64-bit longs.
- The library's `Checks` helpers and Java's `String.trim`, `Character.isWhitespace`, `Long.compare` and `Long.hashCode` are in `java_lang.dfy`. `notEmpty` means non-null and non-empty. `notBlank` means non-null and not all whitespace. `notLonger(n)` means a `String.length()` of at most `n` UTF-16 units. `trim` strips characters up to U+0020 from both ends.

Modules:

- `JavaLang` (`java_lang.dfy`): the Java and `Checks` helpers.
- `Entities`: the shared value types and the name and description length limits.
- `ScheduledEvents`: the event entity.
- `EventActionContract`: the documented interface.
- `EventActions`: the builder.
- `EventManagers`: the update manager.
- `PageFold`: the parse-and-skip fold that both page handlers share, and their empty-page error.
- `UsersPagination` and `MembersPagination`: the two page handlers.
- `DeleteHandlers`: the delete handler.

State that the source updates in place is a class:

- the event;
- the builder;
- the manager;
- the two pagination actions, whose state is the `last`/`lastKey` cursor;
- the delete handler, whose state is the cache and the dispatched events.

Each class method that changes state is proved against a pure function of the old state, and the properties are proved about those functions. `EventManager.GetScheduledEvent` states its new state and result directly.

## Model

| member | source | states |
|---|---|---|
| ScheduledEvents.ScheduledEvent.constructor | src/main/java/net/dv8tion/jda/internal/entities/GuildScheduledEventImpl.java:53-57 | id and guild are set; every other field holds its Java default (null, 0) |
| ScheduledEvents.ScheduledEvent.SetName | src/main/java/net/dv8tion/jda/internal/entities/GuildScheduledEventImpl.java:190-194 | changes only `name`, returns the same object; id and guild are constants |
| ScheduledEvents.ScheduledEvent.SetType | src/main/java/net/dv8tion/jda/internal/entities/GuildScheduledEventImpl.java:196-200 | changes only the type, returns the same object |
| ScheduledEvents.ScheduledEvent.SetLocation | src/main/java/net/dv8tion/jda/internal/entities/GuildScheduledEventImpl.java:202-206 | changes only the location, returns the same object |
| ScheduledEvents.ScheduledEvent.SetDescription | src/main/java/net/dv8tion/jda/internal/entities/GuildScheduledEventImpl.java:208-212 | changes only the description, returns the same object |
| ScheduledEvents.ScheduledEvent.SetImage | src/main/java/net/dv8tion/jda/internal/entities/GuildScheduledEventImpl.java:214-218 | changes only the image hash, returns the same object |
| ScheduledEvents.ScheduledEvent.SetCreatorId | src/main/java/net/dv8tion/jda/internal/entities/GuildScheduledEventImpl.java:220-224 | changes only the creator id, returns the same object |
| ScheduledEvents.ScheduledEvent.SetCreator | src/main/java/net/dv8tion/jda/internal/entities/GuildScheduledEventImpl.java:226-230 | changes only the creator, returns the same object |
| ScheduledEvents.ScheduledEvent.SetStatus | src/main/java/net/dv8tion/jda/internal/entities/GuildScheduledEventImpl.java:232-236 | changes only the status, returns the same object |
| ScheduledEvents.ScheduledEvent.SetStartTime | src/main/java/net/dv8tion/jda/internal/entities/GuildScheduledEventImpl.java:238-242 | changes only the start time, returns the same object |
| ScheduledEvents.ScheduledEvent.SetEndTime | src/main/java/net/dv8tion/jda/internal/entities/GuildScheduledEventImpl.java:244-248 | changes only the end time, returns the same object |
| ScheduledEvents.ScheduledEvent.SetInterestedUserCount | src/main/java/net/dv8tion/jda/internal/entities/GuildScheduledEventImpl.java:250-254 | changes only the interested-user count, returns the same object |
| ScheduledEvents.ScheduledEvent.ImageUrl | src/main/java/net/dv8tion/jda/internal/entities/GuildScheduledEventImpl.java:73-78 | absent exactly when no image hash is stored; otherwise carries the event id and the hash; the extension is "gif" iff the hash starts with "a_", else "png" |
| ScheduledEvents.ScheduledEvent.Channel | src/main/java/net/dv8tion/jda/internal/entities/GuildScheduledEventImpl.java:121-128 | null unless the type is STAGE_INSTANCE or VOICE; for those, the guild's channel looked up by the stored location |
| ScheduledEvents.CompareKeys | src/main/java/net/dv8tion/jda/internal/entities/GuildScheduledEventImpl.java:262-266 | negative, zero, positive exactly when (start, id) is lexicographically less, equal, greater |
| ScheduledEvents.ScheduledEvent.CompareTo | src/main/java/net/dv8tion/jda/internal/entities/GuildScheduledEventImpl.java:257-267 | throws for null, for an event of another guild, and for a missing start time; otherwise negative iff earlier start or same start and smaller id, zero iff same start and same id |
| ScheduledEvents.CompareToAntisymmetric | src/main/java/net/dv8tion/jda/internal/entities/GuildScheduledEventImpl.java:262-266 | swapping the two events negates the sign of the comparison |
| ScheduledEvents.CompareToTransitive | src/main/java/net/dv8tion/jda/internal/entities/GuildScheduledEventImpl.java:262-266 | a ≤ b and b ≤ c give a ≤ c, strictly when either step is strict |
| ScheduledEvents.CompareZeroImpliesEquals | src/main/java/net/dv8tion/jda/internal/entities/GuildScheduledEventImpl.java:257-277 | a comparison of zero implies `equals` |
| ScheduledEvents.EqualsDoesNotImplyCompareZero | src/main/java/net/dv8tion/jda/internal/entities/GuildScheduledEventImpl.java:257-277 | the converse fails: two events with the same id and guild and starts 10 and 20 are `equals` yet compare as -1, so the order is not consistent with `equals` |
| ScheduledEvents.ScheduledEvent.Equals | src/main/java/net/dv8tion/jda/internal/entities/GuildScheduledEventImpl.java:269-277 | true iff the argument is non-null with the same id, whatever its other fields hold |
| ScheduledEvents.ScheduledEvent.HashCode | src/main/java/net/dv8tion/jda/internal/entities/GuildScheduledEventImpl.java:279-283 | `Long.hashCode` of the id alone; a non-negative id below 2^31 is its own hash |
| ScheduledEvents.EqualEventsHashEqually | src/main/java/net/dv8tion/jda/internal/entities/GuildScheduledEventImpl.java:270-283 | events equal under `equals` have equal hash codes |
| JavaLang.LongHashCode | src/main/java/net/dv8tion/jda/internal/entities/GuildScheduledEventImpl.java:282 | `Long.hashCode`, `(int)(v ^ (v >>> 32))`: a 32-bit signed int; `v` itself for 0 ≤ v < 2^31; 0 for -1, whose two halves are equal |
| JavaLang.Compare | src/main/java/net/dv8tion/jda/internal/entities/GuildScheduledEventImpl.java:262-264 | `Long.compare`: -1, 0 or 1 by the order of its arguments |
| JavaLang.NotEmpty | src/main/java/net/dv8tion/jda/internal/requests/restaction/GuildScheduledEventActionImpl.java:95 | passes iff the argument is non-null and non-empty; null fails as null |
| JavaLang.IsWhitespace | src/main/java/net/dv8tion/jda/internal/managers/GuildScheduledEventManagerImpl.java:70 | `Character.isWhitespace` on one char: the no-break spaces U+00A0, U+2007 and U+202F are not whitespace, and nothing above U+3000 is |
| JavaLang.IsBlank | src/main/java/net/dv8tion/jda/internal/managers/GuildScheduledEventManagerImpl.java:70 | every char is whitespace: the empty string is blank, and a string holding a no-break space never is |
| JavaLang.NotBlank | src/main/java/net/dv8tion/jda/internal/managers/GuildScheduledEventManagerImpl.java:70 | passes iff the argument is non-null and not all whitespace |
| JavaLang.Utf16Length | src/main/java/net/dv8tion/jda/internal/requests/restaction/GuildScheduledEventActionImpl.java:96 | `String.length()`: between the number of characters and twice that; one unit per basic-plane character |
| JavaLang.BasicPlaneLength | src/main/java/net/dv8tion/jda/internal/requests/restaction/GuildScheduledEventActionImpl.java:96 | a string with no character above U+FFFF has a `length()` equal to its number of characters |
| JavaLang.SupplementaryCountsTwice | src/main/java/net/dv8tion/jda/internal/requests/restaction/GuildScheduledEventActionImpl.java:96 | U+1F600 is one character but two UTF-16 units |
| JavaLang.NotLonger | src/main/java/net/dv8tion/jda/internal/requests/restaction/GuildScheduledEventActionImpl.java:96 | passes iff the `String.length()` (UTF-16 units) is at most the limit |
| JavaLang.Trim | src/main/java/net/dv8tion/jda/internal/managers/GuildScheduledEventManagerImpl.java:71 | the result is a slice of the input, everything cut off is ≤ U+0020, and the result neither starts nor ends with such a char |
| JavaLang.TrimIdempotent | src/main/java/net/dv8tion/jda/internal/managers/GuildScheduledEventManagerImpl.java:71 | trimming twice equals trimming once |
| JavaLang.TrimEmptyIff | src/main/java/net/dv8tion/jda/internal/managers/GuildScheduledEventManagerImpl.java:71-72 | trim gives "" iff every char is ≤ U+0020 |
| JavaLang.BlankAndTrimDiffer | src/main/java/net/dv8tion/jda/internal/managers/GuildScheduledEventManagerImpl.java:70-72 | a NUL is not blank but trims to ""; U+3000 is blank but survives trim, so neither check subsumes the other |
| EventActionContract.TypeOf | src/main/java/net/dv8tion/jda/api/requests/restaction/GuildScheduledEventAction.java:35-64 | an external place makes an EXTERNAL event, a stage channel a STAGE_INSTANCE event, a voice channel a VOICE event |
| EventActionContract.EntityTypeCode | src/main/java/net/dv8tion/jda/api/requests/restaction/GuildScheduledEventAction.java:35-64 | the API's `entity_type` code of each documented type, 1 to 3: stage 1, voice 2, external 3 |
| EventActionContract.NameAccepted | src/main/java/net/dv8tion/jda/api/requests/restaction/GuildScheduledEventAction.java:99-101 | the documented `setName` accepts exactly the names that pass `notEmpty`, `notBlank` and `notLonger(100)` |
| EventActionContract.DescriptionAccepted | src/main/java/net/dv8tion/jda/api/requests/restaction/GuildScheduledEventAction.java:112-117 | the documented `setDescription` accepts null and every description that passes `notLonger(1000)`, the empty one included |
| EventActionContract.StartTimeAccepted | src/main/java/net/dv8tion/jda/api/requests/restaction/GuildScheduledEventAction.java:135-136 | the documented `setStartTime` accepts exactly a non-null start that does not compare after the end |
| EventActionContract.EndTimeAccepted | src/main/java/net/dv8tion/jda/api/requests/restaction/GuildScheduledEventAction.java:154-155 | the documented `setEndTime` rejects exactly an end that compares before a set start |
| EventActionContract.Creatable | src/main/java/net/dv8tion/jda/api/requests/restaction/GuildScheduledEventAction.java:34-149 | a creatable event has a name, a location and a start, and it has an end time exactly when its location is external: required for external events, impossible for stage and voice events |
| EventActions.StageName | src/main/java/net/dv8tion/jda/internal/requests/restaction/GuildScheduledEventActionImpl.java:93-99 | fails for null, for empty and for more than 100 chars, with that check's error; otherwise stages the argument untrimmed and nothing else |
| EventActions.StageDescription | src/main/java/net/dv8tion/jda/internal/requests/restaction/GuildScheduledEventActionImpl.java:104-110 | fails for null, for empty and for more than 1000 chars; on success the description becomes the staged name, not the argument |
| EventActions.Payload | src/main/java/net/dv8tion/jda/internal/requests/restaction/GuildScheduledEventActionImpl.java:153-169 | always `entity_type` = 2 and `privacy_level` = 2; each of name, description, channel_id, start and end time is present iff its staged field is non-null, holding that value (channel_id the channel's id); no other keys |
| EventActions.EventAction.constructor | src/main/java/net/dv8tion/jda/internal/requests/restaction/GuildScheduledEventActionImpl.java:55-59 | a new builder has nothing staged |
| EventActions.EventAction.SetName | src/main/java/net/dv8tion/jda/internal/requests/restaction/GuildScheduledEventActionImpl.java:93-99 | returns the builder and stages as `StageName` does, or returns the failure and changes nothing |
| EventActions.EventAction.SetDescription | src/main/java/net/dv8tion/jda/internal/requests/restaction/GuildScheduledEventActionImpl.java:104-110 | returns the builder and stages as `StageDescription` does, or returns the failure and changes nothing |
| EventActions.EventAction.SetStageLocation | src/main/java/net/dv8tion/jda/internal/requests/restaction/GuildScheduledEventActionImpl.java:114-118 | replaces the staged channel with the stage channel; nothing else changes |
| EventActions.EventAction.SetVoiceLocation | src/main/java/net/dv8tion/jda/internal/requests/restaction/GuildScheduledEventActionImpl.java:122-126 | replaces the staged channel with the voice channel; nothing else changes |
| EventActions.EventAction.SetExternalLocation | src/main/java/net/dv8tion/jda/internal/requests/restaction/GuildScheduledEventActionImpl.java:130-133 | changes no state and returns null |
| EventActions.EventAction.SetStartTime | src/main/java/net/dv8tion/jda/internal/requests/restaction/GuildScheduledEventActionImpl.java:137-141 | stores the argument, null included, with no ordering check |
| EventActions.EventAction.SetEndTime | src/main/java/net/dv8tion/jda/internal/requests/restaction/GuildScheduledEventActionImpl.java:145-149 | stores the argument with no ordering check; null clears the end time |
| EventActions.EventAction.FinalizeData | src/main/java/net/dv8tion/jda/internal/requests/restaction/GuildScheduledEventActionImpl.java:153-169 | changes nothing and returns `Payload` of the staged fields, whose keys are the two constant keys plus one per non-null staged field |
| EventActions.LastLocationWins | src/main/java/net/dv8tion/jda/internal/requests/restaction/GuildScheduledEventActionImpl.java:114-126 | after two location calls the payload's `channel_id` is the second channel's id |
| EventActions.DocumentedNameIsStaged | src/main/java/net/dv8tion/jda/api/requests/restaction/GuildScheduledEventAction.java:99-101 | every name the interface accepts is accepted and staged verbatim |
| EventActions.BlankNameIsStaged | src/main/java/net/dv8tion/jda/internal/requests/restaction/GuildScheduledEventActionImpl.java:95-96 | "   " is staged although the interface says blank names throw |
| EventActions.DescriptionTakesName | src/main/java/net/dv8tion/jda/internal/requests/restaction/GuildScheduledEventActionImpl.java:108 | with name "Launch" staged, `setDescription("Details")` stages and sends description "Launch" |
| EventActions.NullDescriptionRejected | src/main/java/net/dv8tion/jda/internal/requests/restaction/GuildScheduledEventActionImpl.java:106 | null is documented as "no description" but fails as null; a description set before any name leaves no description key |
| EventActions.EmptyDescriptionRejected | src/main/java/net/dv8tion/jda/internal/requests/restaction/GuildScheduledEventActionImpl.java:106 | "" is a documented description but fails `notEmpty` as empty |
| EventActions.ExternalEventNotExpressible | src/main/java/net/dv8tion/jda/internal/requests/restaction/GuildScheduledEventActionImpl.java:130-157 | for every staged state, `entity_type` is never the external code and no key carries an external place |
| EventActions.EndTimeSentForChannelEvent | src/main/java/net/dv8tion/jda/internal/requests/restaction/GuildScheduledEventActionImpl.java:145-167 | a stage or voice event with an end time is documented as not creatable, yet the builder stages the end time and sends it as `scheduled_end_time` |
| EventActions.TimesAreNotOrdered | src/main/java/net/dv8tion/jda/internal/requests/restaction/GuildScheduledEventActionImpl.java:137-149 | a start after the end and an end before the start are both staged and sent, though the interface says each throws; a null start is staged too and leaves no start key in the payload |
| EventActions.EntityTypeIsAlwaysVoice | src/main/java/net/dv8tion/jda/internal/requests/restaction/GuildScheduledEventActionImpl.java:156 | a stage-channel event, whose type code is 1, is sent with `entity_type` 2 |
| EventActions.NoCreationCheck | src/main/java/net/dv8tion/jda/api/requests/restaction/GuildScheduledEventAction.java:35 | the documented name/location/start requirement is not enforced: an empty builder sends only the two constant keys |
| EventManagers.CheckedName | src/main/java/net/dv8tion/jda/internal/managers/GuildScheduledEventManagerImpl.java:70-73 | succeeds iff the name is non-null, not blank, and trims to 1..100 chars; the result is the trimmed name; each failure names the first failing check |
| EventManagers.SetNameStep | src/main/java/net/dv8tion/jda/internal/managers/GuildScheduledEventManagerImpl.java:68-77 | on success stores the trimmed name and adds NAME to the dirty set; on failure returns the check's error |
| EventManagers.SetNameIdempotent | src/main/java/net/dv8tion/jda/internal/managers/GuildScheduledEventManagerImpl.java:74-75 | calling `setName` twice with one argument leaves the same state as once |
| EventManagers.SetNameKeepsOtherBits | src/main/java/net/dv8tion/jda/internal/managers/GuildScheduledEventManagerImpl.java:75 | every dirty bit other than NAME is unchanged by a successful `setName` |
| EventManagers.StoredNameIsFixedPoint | src/main/java/net/dv8tion/jda/internal/managers/GuildScheduledEventManagerImpl.java:70-74 | a stored name that is not blank passes the checks again unchanged |
| EventManagers.StoredNameCanBeBlank | src/main/java/net/dv8tion/jda/internal/managers/GuildScheduledEventManagerImpl.java:70-72 | NUL + U+3000 is accepted and stored as U+3000, which `setName` itself rejects as blank |
| EventManagers.LimitAppliesAfterTrim | src/main/java/net/dv8tion/jda/internal/managers/GuildScheduledEventManagerImpl.java:71-73 | a 102-char name of 100 letters padded with one space each side is accepted, as its 100-char trim |
| EventManagers.EventManager.constructor | src/main/java/net/dv8tion/jda/internal/managers/GuildScheduledEventManagerImpl.java:43-51 | holds the event; no name staged, no dirty bits |
| EventManagers.EventManager.GetScheduledEvent | src/main/java/net/dv8tion/jda/internal/managers/GuildScheduledEventManagerImpl.java:53-61 | takes the guild's cached event with the held id when there is one, else keeps the held event, and returns it; with a consistent cache the id is unchanged |
| EventManagers.EventManager.SetName | src/main/java/net/dv8tion/jda/internal/managers/GuildScheduledEventManagerImpl.java:68-77 | the new name and dirty set are `SetNameStep` of the old ones; a rejected name changes neither |
| EventManagers.EventManager.SetDescription | src/main/java/net/dv8tion/jda/internal/managers/GuildScheduledEventManagerImpl.java:79-84 | changes no state and returns null |
| EventManagers.EventManager.SetStageLocation | src/main/java/net/dv8tion/jda/internal/managers/GuildScheduledEventManagerImpl.java:86-91 | changes no state and returns null |
| EventManagers.EventManager.SetVoiceLocation | src/main/java/net/dv8tion/jda/internal/managers/GuildScheduledEventManagerImpl.java:93-98 | changes no state and returns null |
| EventManagers.EventManager.SetExternalLocation | src/main/java/net/dv8tion/jda/internal/managers/GuildScheduledEventManagerImpl.java:100-105 | changes no state and returns null |
| EventManagers.EventManager.SetStartTime | src/main/java/net/dv8tion/jda/internal/managers/GuildScheduledEventManagerImpl.java:107-112 | changes no state and returns null |
| EventManagers.EventManager.SetEndTime | src/main/java/net/dv8tion/jda/internal/managers/GuildScheduledEventManagerImpl.java:114-119 | changes no state and returns null |
| EventManagers.EventManager.SetStatus | src/main/java/net/dv8tion/jda/internal/managers/GuildScheduledEventManagerImpl.java:121-126 | changes no state and returns null |
| PageFold.Parsed | src/main/java/net/dv8tion/jda/internal/requests/restaction/pagination/GuildScheduledEventPaginationActionImpl.java:57-69 | the items of the entries that parse; never longer than the raw page |
| PageFold.ParsedAppend | src/main/java/net/dv8tion/jda/internal/requests/restaction/pagination/GuildScheduledEventPaginationActionImpl.java:57-69 | one more raw entry appends its item, if it parses, at the end: the loop's step |
| PageFold.ParsedInOrder | src/main/java/net/dv8tion/jda/internal/requests/restaction/pagination/GuildScheduledEventPaginationActionImpl.java:57-69 | the k-th item is the parse of the k-th parsable entry in increasing index order, and every parsable entry contributes: no reordering, loss or duplication |
| PageFold.ParsedEmptyIff | src/main/java/net/dv8tion/jda/internal/requests/restaction/pagination/GuildScheduledEventPaginationActionImpl.java:70 | no item is produced iff no entry parses, which is when `users.get(-1)` throws |
| PageFold.ParsedAll | src/main/java/net/dv8tion/jda/internal/requests/restaction/pagination/GuildScheduledEventPaginationActionImpl.java:57-69 | when every entry parses, the page is the entries' parses one for one |
| PageFold.LastParsedIsLastParsable | src/main/java/net/dv8tion/jda/internal/requests/restaction/pagination/GuildScheduledEventPaginationActionImpl.java:70-71 | the cursor item is the parse of the last parsable entry; every later entry failed to parse |
| UsersPagination.UsersPaginationAction.constructor | src/main/java/net/dv8tion/jda/internal/requests/restaction/pagination/GuildScheduledEventPaginationActionImpl.java:36-40 | limits 1, 100 and 100 are handed to the base class |
| UsersPagination.UsersPaginationAction.GetKey | src/main/java/net/dv8tion/jda/internal/requests/restaction/pagination/GuildScheduledEventPaginationActionImpl.java:74-78 | a user's cursor key is its id |
| UsersPagination.UsersPaginationAction.HandleSuccess | src/main/java/net/dv8tion/jda/internal/requests/restaction/pagination/GuildScheduledEventPaginationActionImpl.java:50-73 | returns exactly the parsed users in raw order; `last` is the final one and `lastKey` its id; with no parsable entry it throws and leaves the cursor unchanged |
| MembersPagination.MemberParser | src/main/java/net/dv8tion/jda/internal/requests/restaction/pagination/GuildScheduledEventMembersPaginationActionImpl.java:65 | an entry without a "member" object is skipped; otherwise the entry's parse is the parse of that object |
| MembersPagination.MembersPaginationAction.constructor | src/main/java/net/dv8tion/jda/internal/requests/restaction/pagination/GuildScheduledEventMembersPaginationActionImpl.java:41-45 | limits 1, 100 and 100 are handed to the base class |
| MembersPagination.MembersPaginationAction.GetKey | src/main/java/net/dv8tion/jda/internal/requests/restaction/pagination/GuildScheduledEventMembersPaginationActionImpl.java:77-81 | a member's cursor key is the id of its user |
| MembersPagination.MembersPaginationAction.HandleSuccess | src/main/java/net/dv8tion/jda/internal/requests/restaction/pagination/GuildScheduledEventMembersPaginationActionImpl.java:55-76 | returns exactly the members parsed from the "member" objects in raw order; `last` is the final one and `lastKey` its user id; with none it throws and leaves the cursor unchanged |
| DeleteHandlers.HandleDelete | src/main/java/net/dv8tion/jda/internal/handle/GuildScheduledEventDeleteHandler.java:38-65 | a locked guild returns its id and changes nothing; otherwise returns null; an uncached guild changes nothing; for a cached guild its event map loses exactly the event id and nothing else; the locked set and cached guild ids never change |
| DeleteHandlers.DeleteRemovesOnlyThatEntry | src/main/java/net/dv8tion/jda/internal/handle/GuildScheduledEventDeleteHandler.java:53 | for every cached guild and event id: the id is cached afterwards iff it was before and is not the deleted entry of an unlocked guild; a kept entry holds the same event; no entry is added |
| DeleteHandlers.DeleteKeepsOtherGuilds | src/main/java/net/dv8tion/jda/internal/handle/GuildScheduledEventDeleteHandler.java:53 | other guilds' event maps are untouched |
| DeleteHandlers.DispatchOnlyForCachedEvent | src/main/java/net/dv8tion/jda/internal/handle/GuildScheduledEventDeleteHandler.java:54-63 | exactly one delete event carrying the removed event is dispatched when it was cached, none otherwise |
| DeleteHandlers.DeleteTwiceIsDeleteOnce | src/main/java/net/dv8tion/jda/internal/handle/GuildScheduledEventDeleteHandler.java:52-58 | a repeated delete finds nothing to remove and leaves the cache as it is |
| DeleteHandlers.DeleteHandler.constructor | src/main/java/net/dv8tion/jda/internal/handle/GuildScheduledEventDeleteHandler.java:33-36 | the handler starts from the given locked guilds and guild caches, with nothing dispatched |
| DeleteHandlers.DeleteHandler.HandleInternally | src/main/java/net/dv8tion/jda/internal/handle/GuildScheduledEventDeleteHandler.java:38-65 | the new cache and dispatched events, and the returned value, are those of `HandleDelete` |

## Documentation and code disagree

The `GuildScheduledEventAction` interface documents contracts that `GuildScheduledEventActionImpl` does not keep. The model follows the code. The documented contracts are the predicates of `EventActionContract`. Each difference is a lemma:

- `BlankNameIsStaged`: blank names are documented as rejected, but the code only checks `notEmpty`.
- `NullDescriptionRejected`: a null description is documented as allowed, but `notEmpty` rejects it.
- `DescriptionTakesName`: `setDescription` stores the staged name, not its argument.
- `TimesAreNotOrdered`: neither time setter checks the order of start and end.
- `EmptyDescriptionRejected`: an empty description is documented as allowed, but `notEmpty` rejects it.
- `ExternalEventNotExpressible`: the external `setLocation` is a stub, so no documented external event can be staged or sent.
- `EndTimeSentForChannelEvent`: an end time is documented as possible only for external events, but a channel event stages and sends it.
- `EntityTypeIsAlwaysVoice`: `entity_type` is hard-coded to 2.
- `NoCreationCheck`: `finalizeData` does not enforce the creation requirements.

Other properties of the code that the model keeps:

- The builder's `setName` does not trim; only the manager's does.
- `finalizeData` checks no cross-field rule and keeps no set of changed fields.
- `entity_type` is the constant 2, whatever the location.
- The manager's setters other than `setName` are stubs that return null.
- A page where no entry parses throws. The model returns `Failure(IndexOutOfBounds)` and leaves the cursor unchanged.

## Left out

- Request plumbing: route compilation, `getRequestBody`, `setCheck`/`timeout`/`deadline`, and the builder's `handleSuccess`, which calls the entity builder. These are HTTP execution and calls into code that is not part of this model.
- The permission checks in `delete()` and in the manager's constructor. They depend on a permission system that is not part of this model. `delete()` itself builds only a request.
- `EntityBuilder.createUser`/`createMember` and the "member" lookup. They are parameters (`createUser`, `memberObject`, `createMember`); a `None` result stands for a caught `ParsingException` or `NullPointerException`.
- Logging and `System.out.println`.
- The ISO-8601 formatting of instants (`TimeValue` stands for the formatted text) and the image URL template (`ImageRef` keeps its three arguments).
- The `PaginationActionImpl` and `ManagerBase` base classes: limit enforcement, cursor advance, end of stream, `reset`, and the numeric values of the dirty bits. The dirty tags are a `set<Field>`.
- The two update-event classes, which only forward to a constructor that is not part of this model.
- Getters that only return a field, `getGuild`, `getManager`, `retrieveInterested*` and `toString`.
- Missing `guild_id`/`id` keys in the gateway payload; the handler reads them as present longs. Gateway delivery, `responseNumber` bookkeeping and `handleEvent` internals are left out. Dispatch is an append to a ghost sequence.
- `setImage` of the interface. The builder implementation has no body for it, so its documented null-means-no-image contract has nothing to hold against.
- The manager's fields that no code assigns (`description`, `location`, times, `mentionable`, `icon`, `emoji`).
- Thread safety and asynchronous completion.
- JavaLang.IsWhitespace: follows Java 9 and later; on Java 8 (Unicode 6.2) U+180E is also whitespace, which the model does not capture.
- ScheduledEvents.ScheduledEvent.CompareTo: when the start instants differ, Java's `timeLineOrder` may return any non-zero magnitude. The model returns -1 or 1, so only the sign is modelled.
- ScheduledEvents.ScheduledEvent.Channel: the guild's channel lookup is a parameter `channelById`, including its behaviour on a null location.
- EventActions.Payload: `TimeValue` keeps only the instant of an `OffsetDateTime`. Java formats the time with its offset, so two times at the same instant with different offsets are sent as different strings; the model sends the same value for both.
- `Checks.notLonger` is not part of this model; it is taken to compare `String.length()`, which `Utf16Length` models.
