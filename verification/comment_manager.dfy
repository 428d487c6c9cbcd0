/**
 * The channel-to-discussion-group link cache (`CommentManager`): a
 * read-through cache over the `channel_comment_mappings` table. A row younger
 * than 24 hours answers at once (also when it caches "no group"); a missing or
 * stale row makes one query to the platform, whose answer is upserted so that
 * the table keeps one row per channel.
 *
 * The platform's answer is a parameter (`RemoteOutcome`), as is the success of
 * the session's flush and commit; time is an integer clock in seconds.
 */
module CommentLinks {
  import opened Wrappers
  import opened Text
  import opened Models

  /** `CACHE_DURATION`: 24 hours. */
  const CacheDuration: int := 24 * 60 * 60

  /** An entry of the `chats` list in the platform's full-channel answer. */
  datatype ChatEntity = ChatEntity(id: int, title: Option<string>)

  /** What querying the platform for a channel's full record yields. */
  datatype RemoteOutcome =
    | Linked(linkedId: int, chats: seq<ChatEntity>)  // `full_chat.linked_chat_id` is an integer
    | NoLink                                          // `linked_chat_id` is absent
    | BadLinkedId                                     // `linked_chat_id` is present but `int()` rejects it
    | FloodWait(seconds: int)                         // `FloodWaitError`
    | Private                                         // `ChannelPrivateError`
    | RpcError                                        // any other `RPCError`
    | OtherError                                      // any other exception

  /** The call returns a database id or `None`, or it raises `FloodWaitError`. */
  datatype Outcome = Returned(linked: Option<int>) | FloodWaitRaised(seconds: int)

  /** The session's view: its own uncommitted writes on top of the committed rows. */
  datatype Db = Db(pending: Tables, durable: Tables)

  /** The result of one call, the session state it leaves, and whether the platform was queried. */
  datatype Step = Step(outcome: Outcome, db: Db, queried: bool)

  // ------------------------------------------------------------ specification

  /** A row is fresh while less than `CacheDuration` has passed since its check; an unset time is never fresh. */
  predicate IsFresh(m: ChannelCommentMapping, now: int) {
    m.lastChecked.Some? && now - m.lastChecked.value < CacheDuration
  }

  /** The channel has a row that is still fresh at `now`. */
  predicate HasFreshRow(ms: seq<ChannelCommentMapping>, channel: int, now: int) {
    var i := MappingIndexByChannel(ms, channel);
    i.Some? && IsFresh(ms[i.value], now)
  }

  /** The channel's chat row exists and its telegram id is non-empty and reads as an integer. */
  predicate ChannelQueryable(chats: seq<Chat>, channel: int) {
    var ci := ChatIndexById(chats, channel);
    ci.Some? && chats[ci.value].telegramChatId != "" && ParseInt(chats[ci.value].telegramChatId).Some?
  }

  /** The channel's row afterwards: updated in place when there is one, else appended. */
  function Upsert(ms: seq<ChannelCommentMapping>, channel: int, linked: Option<int>, now: int): seq<ChannelCommentMapping>
  {
    match MappingIndexByChannel(ms, channel)
    case Some(i) => ms[i := ms[i].(linkedChatId := linked, lastChecked := Some(now))]
    case None => ms + [ChannelCommentMapping(channel, linked, Some(now))]
  }

  /** One more than the largest chat id (at least 1): the id the store gives a new chat row. */
  function NextChatId(chats: seq<Chat>): (id: int)
    ensures id >= 1
    ensures forall k :: 0 <= k < |chats| ==> chats[k].id < id
    decreases |chats|
  {
    if |chats| == 0 then 1
    else
      var rest := NextChatId(chats[..|chats| - 1]);
      var last := chats[|chats| - 1].id;
      if last + 1 > rest then last + 1 else rest
  }

  /** The title of the first entity of the answer whose id is the linked id, if any. */
  function TitleOf(entities: seq<ChatEntity>, telegramId: int): Option<string> {
    match FindFirst(entities, (e: ChatEntity) => e.id == telegramId)
    case Some(k) => entities[k].title
    case None => None
  }

  /** `_persist_mapping`: upsert the row, commit, and return the linked id (or `None` after a rollback). */
  function Persist(db: Db, channel: int, linked: Option<int>, now: int, commitOk: bool): (r: (Outcome, Db))
    ensures r.1.pending == r.1.durable
    ensures commitOk ==> r.0 == Returned(linked) && r.1.durable == db.pending.(mappings := r.1.durable.mappings)
    ensures !commitOk ==> r.0 == Returned(None) && r.1.durable == db.durable
  {
    var written := db.pending.(mappings := Upsert(db.pending.mappings, channel, linked, now));
    if commitOk then (Returned(linked), Db(written, written))
    else (Returned(None), Db(db.durable, db.durable))
  }

  /** The linked group's chat row: found by telegram id, or created and flushed. */
  function LinkAndPersist(db: Db, channel: int, linkedTelegramId: int, entities: seq<ChatEntity>,
                          now: int, flushOk: bool, commitOk: bool): (r: (Outcome, Db))
    ensures r.1.pending == r.1.durable
  {
    var text := IntToString(linkedTelegramId);
    match ChatIndexByTelegramId(db.pending.chats, text)
    case Some(li) => Persist(db, channel, Some(db.pending.chats[li].id), now, commitOk)
    case None =>
      var newChat := Chat(NextChatId(db.pending.chats), text, TitleOf(entities, linkedTelegramId));
      var added := InsertChat(db.pending.chats, newChat);
      if !flushOk || added.None? then (Returned(None), Db(db.durable, db.durable))
      else Persist(Db(db.pending.(chats := added.value), db.durable), channel, Some(newChat.id), now, commitOk)
  }

  /** `_fetch_and_update`. */
  function Refresh(db: Db, channel: int, now: int, remote: RemoteOutcome,
                          flushOk: bool, commitOk: bool): (s: Step)
    ensures s.queried <==> ChannelQueryable(db.pending.chats, channel)
    ensures !s.queried || s.outcome.FloodWaitRaised? ==> s.db == db
    ensures s.db == db || s.db.pending == s.db.durable
  {
    if !ChannelQueryable(db.pending.chats, channel) then Step(Returned(None), db, false)
    else match remote
      case FloodWait(secs) => Step(FloodWaitRaised(secs), db, true)
      case Private => Step(Returned(None), db, true)
      case RpcError => Step(Returned(None), db, true)
      case OtherError => Step(Returned(None), db, true)
      case BadLinkedId => Step(Returned(None), db, true)
      case NoLink =>
        var (o, d) := Persist(db, channel, None, now, commitOk);
        Step(o, d, true)
      case Linked(tg, entities) =>
        var (o, d) := LinkAndPersist(db, channel, tg, entities, now, flushOk, commitOk);
        Step(o, d, true)
  }

  /** `get_linked_chat_id`. */
  function GetLinked(db: Db, channel: int, now: int, remote: RemoteOutcome,
                     flushOk: bool, commitOk: bool): (s: Step)
    ensures channel == 0 ==> s == Step(Returned(None), db, false)
    ensures !s.queried || s.outcome.FloodWaitRaised? ==> s.db == db
    ensures s.db == db || s.db.pending == s.db.durable
  {
    if channel == 0 then Step(Returned(None), db, false)
    else if HasFreshRow(db.pending.mappings, channel, now) then
      var i := MappingIndexByChannel(db.pending.mappings, channel).value;
      Step(Returned(db.pending.mappings[i].linkedChatId), db, false)
    else Refresh(db, channel, now, remote, flushOk, commitOk)
  }

  // ------------------------------------------------------------ properties

  /** After an upsert the channel's row holds the new answer and time. */
  lemma UpsertFinds(ms: seq<ChannelCommentMapping>, channel: int, linked: Option<int>, now: int)
    ensures var r := Upsert(ms, channel, linked, now);
      var j := MappingIndexByChannel(r, channel);
      j.Some? && r[j.value] == ChannelCommentMapping(channel, linked, Some(now))
  {
    var r := Upsert(ms, channel, linked, now);
    match MappingIndexByChannel(ms, channel)
    case Some(i) =>
      assert r[i].channelChatId == channel;
      assert forall k :: 0 <= k < i ==> r[k] == ms[k];
      var j := MappingIndexByChannel(r, channel);
      assert j == Some(i) by {
        assert !(j.value < i);
      }
    case None =>
      assert forall k :: 0 <= k < |ms| ==> r[k] == ms[k];
      assert r[|ms|].channelChatId == channel;
      var j := MappingIndexByChannel(r, channel);
      assert j.Some? && !(j.value < |ms|);
  }

  /** The upsert never adds a second row for a channel. */
  lemma UpsertKeepsOneRowPerChannel(ms: seq<ChannelCommentMapping>, channel: int, linked: Option<int>, now: int)
    requires MappingChannelsUnique(ms)
    ensures MappingChannelsUnique(Upsert(ms, channel, linked, now))
    ensures |Upsert(ms, channel, linked, now)| <= |ms| + 1
  {
  }

  /** The upsert leaves every other channel's row as it was. */
  lemma UpsertOthersUnchanged(ms: seq<ChannelCommentMapping>, channel: int, linked: Option<int>, now: int, other: int)
    requires other != channel
    ensures var r := Upsert(ms, channel, linked, now);
      var i, j := MappingIndexByChannel(ms, other), MappingIndexByChannel(r, other);
      i.Some? == j.Some? && (i.Some? ==> r[j.value] == ms[i.value])
  {
    var r := Upsert(ms, channel, linked, now);
    var i, j := MappingIndexByChannel(ms, other), MappingIndexByChannel(r, other);
    assert forall k :: 0 <= k < |ms| ==> (r[k].channelChatId == other <==> ms[k].channelChatId == other);
    assert forall k :: 0 <= k < |ms| && ms[k].channelChatId == other ==> r[k] == ms[k];
    if i.Some? {
      assert j.Some? && !(j.value < i.value) && !(i.value < j.value);
    }
  }

  lemma IsChatIdAppend(chats: seq<Chat>, c: Chat, id: int)
    requires IsChatId(chats, id)
    ensures IsChatId(chats + [c], id)
  {
    var k :| 0 <= k < |chats| && chats[k].id == id;
    assert (chats + [c])[k].id == id;
  }

  lemma PersistKeepsValid(t: Tables, channel: int, linked: Option<int>, now: int)
    requires ValidTables(t) && IsChatId(t.chats, channel)
    requires linked.Some? ==> IsChatId(t.chats, linked.value)
    ensures ValidTables(t.(mappings := Upsert(t.mappings, channel, linked, now)))
  {
    UpsertKeepsOneRowPerChannel(t.mappings, channel, linked, now);
  }

  lemma AddChatKeepsValid(t: Tables, c: Chat)
    requires ValidTables(t)
    requires InsertChat(t.chats, c).Some?
    ensures ValidTables(t.(chats := t.chats + [c]))
    ensures IsChatId(t.chats + [c], c.id)
  {
    var chats' := t.chats + [c];
    assert chats'[|t.chats|].id == c.id;
    forall k | 0 <= k < |t.mappings|
      ensures IsChatId(chats', t.mappings[k].channelChatId)
      ensures t.mappings[k].linkedChatId.Some? ==> IsChatId(chats', t.mappings[k].linkedChatId.value)
    {
      IsChatIdAppend(t.chats, c, t.mappings[k].channelChatId);
      if t.mappings[k].linkedChatId.Some? {
        IsChatIdAppend(t.chats, c, t.mappings[k].linkedChatId.value);
      }
    }
  }

  lemma PersistStepKeepsValid(db: Db, channel: int, linked: Option<int>, now: int, commitOk: bool)
    requires ValidTables(db.pending) && ValidTables(db.durable) && IsChatId(db.pending.chats, channel)
    requires linked.Some? ==> IsChatId(db.pending.chats, linked.value)
    ensures var d := Persist(db, channel, linked, now, commitOk).1;
      ValidTables(d.pending) && ValidTables(d.durable)
  {
    PersistKeepsValid(db.pending, channel, linked, now);
  }

  lemma LinkAndPersistKeepsValid(db: Db, channel: int, tg: int, entities: seq<ChatEntity>, now: int, flushOk: bool, commitOk: bool)
    requires ValidTables(db.pending) && ValidTables(db.durable) && IsChatId(db.pending.chats, channel)
    ensures var d := LinkAndPersist(db, channel, tg, entities, now, flushOk, commitOk).1;
      ValidTables(d.pending) && ValidTables(d.durable)
  {
    var text := IntToString(tg);
    var li := ChatIndexByTelegramId(db.pending.chats, text);
    if li.Some? {
      PersistStepKeepsValid(db, channel, Some(db.pending.chats[li.value].id), now, commitOk);
    } else {
      var newChat := Chat(NextChatId(db.pending.chats), text, TitleOf(entities, tg));
      if flushOk && InsertChat(db.pending.chats, newChat).Some? {
        AddChatKeepsValid(db.pending, newChat);
        var t' := db.pending.(chats := db.pending.chats + [newChat]);
        IsChatIdAppend(db.pending.chats, newChat, channel);
        PersistStepKeepsValid(Db(t', db.durable), channel, Some(newChat.id), now, commitOk);
      }
    }
  }

  /**
   * Every call keeps the schema's constraints, in particular at most one cache
   * row per channel and both mapping columns pointing at existing chats.
   */
  lemma GetLinkedKeepsTablesValid(db: Db, channel: int, now: int, remote: RemoteOutcome, flushOk: bool, commitOk: bool)
    requires ValidTables(db.pending) && ValidTables(db.durable)
    ensures var s := GetLinked(db, channel, now, remote, flushOk, commitOk);
      ValidTables(s.db.pending) && ValidTables(s.db.durable)
  {
    if channel != 0 && !HasFreshRow(db.pending.mappings, channel, now) {
      RefreshKeepsValid(db, channel, now, remote, flushOk, commitOk);
    }
  }

  lemma RefreshKeepsValid(db: Db, channel: int, now: int, remote: RemoteOutcome, flushOk: bool, commitOk: bool)
    requires ValidTables(db.pending) && ValidTables(db.durable)
    ensures var d := Refresh(db, channel, now, remote, flushOk, commitOk).db;
      ValidTables(d.pending) && ValidTables(d.durable)
  {
    if ChannelQueryable(db.pending.chats, channel) {
      var ci := ChatIndexById(db.pending.chats, channel).value;
      assert db.pending.chats[ci].id == channel;
      match remote
      case NoLink =>
        PersistStepKeepsValid(db, channel, None, now, commitOk);
      case Linked(tg, entities) =>
        LinkAndPersistKeepsValid(db, channel, tg, entities, now, flushOk, commitOk);
      case _ =>
    }
  }

  /** A falsy channel id (0) returns `None` without reading the table, querying or writing. */
  lemma ZeroChannelIsRejected(db: Db, now: int, remote: RemoteOutcome, flushOk: bool, commitOk: bool)
    ensures GetLinked(db, 0, now, remote, flushOk, commitOk) == Step(Returned(None), db, false)
  {
  }

  /**
   * A fresh row answers with its cached value, which may be a cached "no
   * group", with no query and no write.
   */
  lemma FreshRowAnswersFromCache(db: Db, channel: int, now: int, remote: RemoteOutcome, flushOk: bool, commitOk: bool, i: nat)
    requires channel != 0 && MappingChannelsUnique(db.pending.mappings)
    requires i < |db.pending.mappings| && db.pending.mappings[i].channelChatId == channel
    requires IsFresh(db.pending.mappings[i], now)
    ensures GetLinked(db, channel, now, remote, flushOk, commitOk) ==
      Step(Returned(db.pending.mappings[i].linkedChatId), db, false)
  {
    var j := MappingIndexByChannel(db.pending.mappings, channel);
    assert j.Some? && !(j.value < i) && !(i < j.value);
  }

  /**
   * The platform is queried exactly when the channel id is non-zero, its row
   * is missing or stale (an unset check time counts as stale), and its chat
   * row has a telegram id that reads as an integer.
   */
  lemma QueriedIffStale(db: Db, channel: int, now: int, remote: RemoteOutcome, flushOk: bool, commitOk: bool)
    ensures GetLinked(db, channel, now, remote, flushOk, commitOk).queried <==>
      channel != 0 && !HasFreshRow(db.pending.mappings, channel, now) && ChannelQueryable(db.pending.chats, channel)
  {
  }

  /**
   * A flood-wait is raised to the caller with its waiting time, and nothing is
   * written: an existing row keeps its `last_checked`.
   */
  lemma FloodWaitWritesNothing(db: Db, channel: int, now: int, seconds: int, flushOk: bool, commitOk: bool)
    ensures var s := GetLinked(db, channel, now, FloodWait(seconds), flushOk, commitOk);
      s.db == db && (s.queried ==> s.outcome == FloodWaitRaised(seconds))
  {
    if channel != 0 && !HasFreshRow(db.pending.mappings, channel, now) && ChannelQueryable(db.pending.chats, channel) {
      assert Refresh(db, channel, now, FloodWait(seconds), flushOk, commitOk) == Step(FloodWaitRaised(seconds), db, true);
    }
  }

  /**
   * A private channel, an RPC error, any other error and a linked id that is
   * not an integer all return `None` and write nothing: a failed query is not
   * cached.
   */
  lemma FailedQueryWritesNothing(db: Db, channel: int, now: int, remote: RemoteOutcome, flushOk: bool, commitOk: bool)
    requires remote.Private? || remote.RpcError? || remote.OtherError? || remote.BadLinkedId?
    ensures var s := GetLinked(db, channel, now, remote, flushOk, commitOk);
      s.db == db && (s.queried ==> s.outcome == Returned(None))
  {
    if channel != 0 && !HasFreshRow(db.pending.mappings, channel, now) && ChannelQueryable(db.pending.chats, channel) {
      assert Refresh(db, channel, now, remote, flushOk, commitOk) == Step(Returned(None), db, true);
    }
  }

  /**
   * "No linked group" is cached: the committed table holds one row for the
   * channel with `linked_chat_id = None` and the current time, and `None` is
   * returned.
   */
  lemma NoLinkIsCached(db: Db, channel: int, now: int, flushOk: bool)
    requires channel != 0 && !HasFreshRow(db.pending.mappings, channel, now)
    requires ChannelQueryable(db.pending.chats, channel)
    ensures var s := GetLinked(db, channel, now, NoLink, flushOk, true);
      var ms := s.db.durable.mappings;
      var j := MappingIndexByChannel(ms, channel);
      s.outcome == Returned(None) && j.Some? && ms[j.value] == ChannelCommentMapping(channel, None, Some(now))
  {
    UpsertFinds(db.pending.mappings, channel, None, now);
  }

  /**
   * A linked group without a chat row gets exactly one new row, keyed by the
   * group's telegram id as text, named after the matching entity of the
   * answer, with a fresh id; that id is what is cached and returned.
   */
  lemma LinkedGroupChatCreated(db: Db, channel: int, now: int, tg: int, entities: seq<ChatEntity>)
    requires channel != 0 && !HasFreshRow(db.pending.mappings, channel, now)
    requires ChannelQueryable(db.pending.chats, channel)
    requires ChatIndexByTelegramId(db.pending.chats, IntToString(tg)).None?
    ensures var s := GetLinked(db, channel, now, Linked(tg, entities), true, true);
      var newId := NextChatId(db.pending.chats);
      && s.db.durable.chats == db.pending.chats + [Chat(newId, IntToString(tg), TitleOf(entities, tg))]
      && !IsChatId(db.pending.chats, newId)
      && s.outcome == Returned(Some(newId))
      && var ms := s.db.durable.mappings;
         var j := MappingIndexByChannel(ms, channel);
         j.Some? && ms[j.value] == ChannelCommentMapping(channel, Some(newId), Some(now))
  {
    var newId := NextChatId(db.pending.chats);
    assert forall k :: 0 <= k < |db.pending.chats| ==> db.pending.chats[k].id != newId;
    UpsertFinds(db.pending.mappings, channel, Some(newId), now);
  }

  /**
   * A linked group that already has a chat row creates no chat: the cached
   * and returned id is that row's.
   */
  lemma LinkedGroupChatReused(db: Db, channel: int, now: int, tg: int, entities: seq<ChatEntity>, flushOk: bool, k: nat)
    requires channel != 0 && !HasFreshRow(db.pending.mappings, channel, now)
    requires ChannelQueryable(db.pending.chats, channel)
    requires TelegramIdsUnique(db.pending.chats)
    requires k < |db.pending.chats| && db.pending.chats[k].telegramChatId == IntToString(tg)
    ensures var s := GetLinked(db, channel, now, Linked(tg, entities), flushOk, true);
      s.db.durable.chats == db.pending.chats && s.outcome == Returned(Some(db.pending.chats[k].id))
  {
    TelegramLookupIsOnlyMatch(db.pending.chats, IntToString(tg), k);
  }

  /**
   * On the write path (a stale, queryable channel for which the platform
   * answered), a refused commit rolls the session back to its committed rows
   * and returns `None`.
   */
  lemma FailedWriteRollsBack(db: Db, channel: int, now: int, remote: RemoteOutcome, flushOk: bool)
    requires channel != 0 && !HasFreshRow(db.pending.mappings, channel, now)
    requires ChannelQueryable(db.pending.chats, channel)
    requires remote.NoLink? || remote.Linked?
    ensures var s := GetLinked(db, channel, now, remote, flushOk, false);
      s.outcome == Returned(None) && s.db == Db(db.durable, db.durable)
  {
  }

  /**
   * So does a refused flush of the linked group's new chat row, whatever the
   * commit would have done.
   */
  lemma FailedFlushRollsBack(db: Db, channel: int, now: int, tg: int, entities: seq<ChatEntity>, commitOk: bool)
    requires channel != 0 && !HasFreshRow(db.pending.mappings, channel, now)
    requires ChannelQueryable(db.pending.chats, channel)
    requires ChatIndexByTelegramId(db.pending.chats, IntToString(tg)).None?
    ensures var s := GetLinked(db, channel, now, Linked(tg, entities), false, commitOk);
      s.outcome == Returned(None) && s.db == Db(db.durable, db.durable)
  {
  }

  /**
   * Whatever the path, a refused commit leaves the committed rows as they
   * were, and the session either untouched or rolled back to them.
   */
  lemma FailedCommitKeepsCommitted(db: Db, channel: int, now: int, remote: RemoteOutcome, flushOk: bool)
    ensures var s := GetLinked(db, channel, now, remote, flushOk, false);
      s.db.durable == db.durable && (s.db.pending == db.pending || s.db.pending == db.durable)
  {
    if channel != 0 && !HasFreshRow(db.pending.mappings, channel, now) && ChannelQueryable(db.pending.chats, channel) {
      match remote
      case NoLink => FailedWriteRollsBack(db, channel, now, remote, flushOk);
      case Linked(_, _) => FailedWriteRollsBack(db, channel, now, remote, flushOk);
      case _ =>
    }
  }

  /**
   * Cache idempotence: once a call has stored its answer (a "no group", or a
   * linked group whose chat row could be flushed), any call for the same
   * channel less than `CacheDuration` later returns the same answer, with no
   * query and no write, whatever the platform would say.
   */
  lemma {:induction false} RepeatWithinTtlHitsCache(
    db: Db, channel: int, now: int, remote: RemoteOutcome,
    later: int, remote2: RemoteOutcome, flushOk2: bool, commitOk2: bool)
    requires channel != 0 && !HasFreshRow(db.pending.mappings, channel, now)
    requires ChannelQueryable(db.pending.chats, channel)
    requires remote.NoLink? || remote.Linked?
    requires now <= later < now + CacheDuration
    ensures var s := GetLinked(db, channel, now, remote, true, true);
      s.queried && GetLinked(s.db, channel, later, remote2, flushOk2, commitOk2) == Step(s.outcome, s.db, false)
  {
    var s := GetLinked(db, channel, now, remote, true, true);
    var linked := s.outcome.linked;
    var base := if remote.NoLink? then db.pending else
      var text := IntToString(remote.linkedId);
      if ChatIndexByTelegramId(db.pending.chats, text).Some? then db.pending
      else db.pending.(chats := db.pending.chats + [Chat(NextChatId(db.pending.chats), text, TitleOf(remote.chats, remote.linkedId))]);
    assert s.db.pending == base.(mappings := Upsert(db.pending.mappings, channel, linked, now));
    UpsertFinds(db.pending.mappings, channel, linked, now);
    StoredRowAnswers(s.db, channel, linked, now, later, remote2, flushOk2, commitOk2);
  }

  lemma StoredRowAnswers(db: Db, channel: int, linked: Option<int>, now: int,
                         later: int, remote: RemoteOutcome, flushOk: bool, commitOk: bool)
    requires channel != 0 && now <= later < now + CacheDuration
    requires var j := MappingIndexByChannel(db.pending.mappings, channel);
      j.Some? && db.pending.mappings[j.value] == ChannelCommentMapping(channel, linked, Some(now))
    ensures GetLinked(db, channel, later, remote, flushOk, commitOk) == Step(Returned(linked), db, false)
  {
    var j := MappingIndexByChannel(db.pending.mappings, channel).value;
    assert IsFresh(db.pending.mappings[j], later);
  }

  // ------------------------------------------------------------ the manager

  /** `CommentManager`: holds the session whose tables it reads and updates. */
  class CommentManager {
    const session: Session

    constructor (session: Session)
      ensures this.session == session
    {
      this.session := session;
    }

    /** `get_linked_chat_id`. */
    method GetLinkedChatId(channel: int, now: int, remote: RemoteOutcome, flushOk: bool, commitOk: bool)
      returns (outcome: Outcome, queried: bool)
      modifies session
      ensures Step(outcome, Db(session.pending, session.durable), queried) ==
        GetLinked(Db(old(session.pending), old(session.durable)), channel, now, remote, flushOk, commitOk)
      ensures session.isOpen == old(session.isOpen)
    {
      if channel == 0 {
        return Returned(None), false;
      }
      var ms := session.pending.mappings;
      var found := MappingIndexByChannel(ms, channel);
      if found.Some? {
        var m := ms[found.value];
        if m.lastChecked.Some? && now - m.lastChecked.value < CacheDuration {
          return Returned(m.linkedChatId), false;
        }
      }
      outcome, queried := FetchAndUpdate(channel, now, remote, flushOk, commitOk);
    }

    /** `_fetch_and_update`. */
    method FetchAndUpdate(channel: int, now: int, remote: RemoteOutcome, flushOk: bool, commitOk: bool)
      returns (outcome: Outcome, queried: bool)
      modifies session
      ensures Step(outcome, Db(session.pending, session.durable), queried) ==
        Refresh(Db(old(session.pending), old(session.durable)), channel, now, remote, flushOk, commitOk)
      ensures session.isOpen == old(session.isOpen)
    {
      var chats := session.pending.chats;
      var ci := ChatIndexById(chats, channel);
      if ci.None? {
        return Returned(None), false;
      }
      var telegramText := chats[ci.value].telegramChatId;
      if telegramText == "" {
        return Returned(None), false;
      }
      var channelTelegramId := ParseInt(telegramText);
      if channelTelegramId.None? {
        return Returned(None), false;
      }
      queried := true;
      match remote {
        case FloodWait(secs) =>
          outcome := FloodWaitRaised(secs);
        case Private =>
          outcome := Returned(None);
        case RpcError =>
          outcome := Returned(None);
        case OtherError =>
          outcome := Returned(None);
        case BadLinkedId =>
          outcome := Returned(None);
        case NoLink =>
          var r := PersistMapping(channel, None, now, commitOk);
          outcome := Returned(r);
        case Linked(tg, entities) =>
          var text := IntToString(tg);
          var li := ChatIndexByTelegramId(chats, text);
          var linkedDbId;
          if li.Some? {
            linkedDbId := chats[li.value].id;
          } else {
            var newChat := Chat(NextChatId(chats), text, TitleOf(entities, tg));
            var added := InsertChat(chats, newChat);
            if !flushOk || added.None? {
              session.Rollback();
              return Returned(None), true;
            }
            session.Stage(session.pending.(chats := added.value));
            linkedDbId := newChat.id;
          }
          var r := PersistMapping(channel, Some(linkedDbId), now, commitOk);
          outcome := Returned(r);
      }
    }

    /** `_persist_mapping`: update the channel's row in place or add one, then commit. */
    method PersistMapping(channel: int, linked: Option<int>, now: int, commitOk: bool) returns (r: Option<int>)
      modifies session
      ensures (Returned(r), Db(session.pending, session.durable)) ==
        Persist(Db(old(session.pending), old(session.durable)), channel, linked, now, commitOk)
      ensures session.isOpen == old(session.isOpen)
    {
      var ms := session.pending.mappings;
      var found := MappingIndexByChannel(ms, channel);
      if found.Some? {
        var i := found.value;
        ms := ms[i := ms[i].(linkedChatId := linked, lastChecked := Some(now))];
      } else {
        ms := ms + [ChannelCommentMapping(channel, linked, Some(now))];
      }
      session.Stage(session.pending.(mappings := ms));
      var ok := session.Commit(commitOk);
      if ok {
        r := linked;
      } else {
        session.Rollback();
        r := None;
      }
    }
  }
}
