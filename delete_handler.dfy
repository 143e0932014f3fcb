/** The gateway handler for a deleted scheduled event: a small decision over
    the client's cache. A locked guild defers the event, an unknown guild or
    event is ignored, and otherwise the cached event is removed and one
    delete event carrying it is dispatched. */
module DeleteHandlers {
  import opened Wrappers
  import opened JavaLang
  import opened ScheduledEvents

  /** The two fields of the gateway payload the handler reads. */
  datatype Content = Content(guildId: Long, id: Long)

  /** A dispatched `GuildScheduledEventDeleteEvent`. */
  datatype DeleteEvent = DeleteEvent(responseNumber: int, event: ScheduledEvent)

  /** What the handler reads and changes: the locked guild ids, the cached
      scheduled events by guild id and event id, and the events dispatched
      so far. */
  datatype Cache = Cache(
    locked: set<Long>,
    guilds: map<Long, map<Long, ScheduledEvent>>,
    dispatched: seq<DeleteEvent>)

  /** The outcome of one delete: the new cache and the returned guild id
      (a `Long` that may be null). */
  datatype Outcome = Outcome(cache: Cache, returned: Option<Long>)

  /** `handleInternally` as a function of the cache. */
  function HandleDelete(c: Cache, content: Content, responseNumber: int): (out: Outcome)
    ensures content.guildId in c.locked <==> out.returned == Some(content.guildId)
    ensures content.guildId !in c.locked ==> out.returned == None
    ensures out.cache.locked == c.locked
    ensures out.cache.guilds.Keys == c.guilds.Keys
    ensures content.guildId in c.locked || content.guildId !in c.guilds ==> out.cache == c
    ensures content.guildId !in c.locked && content.guildId in c.guilds ==>
              out.cache.guilds[content.guildId] == c.guilds[content.guildId] - {content.id}
  {
    if content.guildId in c.locked then Outcome(c, Some(content.guildId))
    else if content.guildId !in c.guilds then Outcome(c, None)
    else
      var events := c.guilds[content.guildId];
      var kept: map<Long, ScheduledEvent> := events - {content.id};
      var remaining := c.guilds[content.guildId := kept];
      if content.id !in events then Outcome(c.(guilds := remaining), None)
      else Outcome(Cache(c.locked, remaining, c.dispatched + [DeleteEvent(responseNumber, events[content.id])]), None)
  }

  /** Only the one entry is removed: an event id is cached for a guild
      afterwards exactly when it was cached before and is not the deleted
      entry of an unlocked guild, and every entry kept holds the same
      event. No entry is added. */
  lemma DeleteRemovesOnlyThatEntry(c: Cache, content: Content, responseNumber: int, g: Long, e: Long)
    requires g in c.guilds
    ensures var after := HandleDelete(c, content, responseNumber).cache;
            var target := content.guildId !in c.locked && g == content.guildId && e == content.id;
            && g in after.guilds
            && (e in after.guilds[g] <==> e in c.guilds[g] && !target)
            && (e in after.guilds[g] ==> after.guilds[g][e] == c.guilds[g][e])
  {
  }

  /** Nothing is ever removed from a guild that is not the payload's. */
  lemma DeleteKeepsOtherGuilds(c: Cache, content: Content, responseNumber: int, g: Long)
    requires g in c.guilds && g != content.guildId
    ensures HandleDelete(c, content, responseNumber).cache.guilds[g] == c.guilds[g]
  {
  }

  /** Exactly one delete event, carrying the removed event, is dispatched
      when the event was cached in an unlocked, cached guild; otherwise
      none is. */
  lemma DispatchOnlyForCachedEvent(c: Cache, content: Content, responseNumber: int)
    ensures var after := HandleDelete(c, content, responseNumber).cache;
            var removed := content.guildId !in c.locked && content.guildId in c.guilds
                           && content.id in c.guilds[content.guildId];
            && (removed ==> after.dispatched
                            == c.dispatched + [DeleteEvent(responseNumber, c.guilds[content.guildId][content.id])])
            && (!removed ==> after.dispatched == c.dispatched)
  {
  }

  /** A delete changes nothing but its own entry: applied a second time it
      finds the event gone and leaves the cache as it is. */
  lemma DeleteTwiceIsDeleteOnce(c: Cache, content: Content, responseNumber: int)
    ensures var once := HandleDelete(c, content, responseNumber).cache;
            HandleDelete(once, content, responseNumber).cache == once
  {
    var once := HandleDelete(c, content, responseNumber).cache;
    if content.guildId !in c.locked && content.guildId in c.guilds {
      var events := once.guilds[content.guildId];
      var kept: map<Long, ScheduledEvent> := events - {content.id};
      assert kept == events;
      assert once.guilds[content.guildId := kept] == once.guilds;
    }
  }

  class DeleteHandler {
    var locked: set<Long>
    var guilds: map<Long, map<Long, ScheduledEvent>>
    ghost var dispatched: seq<DeleteEvent>

    ghost function State(): Cache
      reads this
    {
      Cache(locked, guilds, dispatched)
    }

    constructor (locked: set<Long>, guilds: map<Long, map<Long, ScheduledEvent>>)
      ensures State() == Cache(locked, guilds, [])
    {
      this.locked, this.guilds := locked, guilds;
      dispatched := [];
    }

    /** `handleInternally`: early returns for a locked guild, an unknown
        guild and an unknown event; otherwise remove and dispatch. */
    method HandleInternally(content: Content, responseNumber: int) returns (r: Option<Long>)
      modifies this
      ensures State() == HandleDelete(old(State()), content, responseNumber).cache
      ensures r == HandleDelete(old(State()), content, responseNumber).returned
    {
      if content.guildId in locked {
        return Some(content.guildId);
      }
      if content.guildId !in guilds {
        return None;
      }
      var events := guilds[content.guildId];
      var removed := if content.id in events then Some(events[content.id]) else None;
      var kept: map<Long, ScheduledEvent> := events - {content.id};
      guilds := guilds[content.guildId := kept];
      if removed.None? {
        return None;
      }
      dispatched := dispatched + [DeleteEvent(responseNumber, removed.value)];
      r := None;
    }
  }
}
