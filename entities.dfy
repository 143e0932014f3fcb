/** Values shared by the scheduled-event code: instants, users, members and
    guild channels. Only the parts the scheduled-event code reads are kept. */
module Entities {
  import opened JavaLang

  /** `GuildScheduledEvent.MAX_NAME_LENGTH`. */
  const MAX_NAME_LENGTH: nat := 100
  /** `GuildScheduledEvent.MAX_DESCRIPTION_LENGTH`. */
  const MAX_DESCRIPTION_LENGTH: nat := 1000

  /** A point on the time line. `OffsetDateTime` values are compared by
      `timeLineOrder`, that is by the instant they denote, so an instant is
      all the model keeps of them. */
  type Instant = int

  /** A Discord user; `getIdLong()` is its id. */
  datatype User = User(id: Long)

  /** A guild member; its id is its user's id. */
  datatype Member = Member(user: User) {
    function Id(): Long { user.id }
  }

  /** The two kinds of audio channel an event can take place in. */
  datatype AudioKind = StageChannel | VoiceChannel

  /** A stage or voice channel of a guild. */
  datatype AudioChannel = AudioChannel(id: Long, kind: AudioKind)
}
