/**
 * The persisted records the forwarder's core reads and writes (chats, forward
 * rules, rule-sync links, push configurations and the channel-to-discussion
 * group cache), the unique constraints the schema declares on them, and a
 * database session with commit, rollback and close.
 */
module Models {
  import opened Wrappers
  import opened Text

  /** Default text put in front of a forwarded comment. */
  const DefaultCommentPrefix: string := "💬 评论:"

  /** A chat known to the forwarder; `telegramChatId` is the platform id as text. */
  datatype Chat = Chat(id: int, telegramChatId: string, name: Option<string>)

  /** The columns of a forward rule that the core reads or writes. */
  datatype ForwardRule = ForwardRule(
    id: int,
    sourceChatId: int,
    targetChatId: int,
    useBot: bool,
    enableRule: bool,
    isOriginalLink: bool,
    originalLinkTemplate: Option<string>,
    isOriginalSender: bool,
    userinfoTemplate: Option<string>,
    isOriginalTime: bool,
    timeTemplate: Option<string>,
    enableCommentForward: bool,
    commentMessagePrefix: Option<string>,
    enableCommentContext: bool,
    enablePush: bool,
    enableSync: bool,
    aiPrompt: Option<string>,
    summaryPrompt: Option<string>)

  /** Rule `ruleId` passes its settings on to rule `syncRuleId`. */
  datatype RuleSync = RuleSync(ruleId: int, syncRuleId: int)

  datatype PushConfig = PushConfig(ruleId: int, pushChannel: string, enablePushChannel: bool, mediaSendMode: string)

  /**
   * A cached answer to "which discussion group is this channel linked to":
   * `linkedChatId == None` is a cached "no group"; `lastChecked == None` is a
   * row whose check time was never set (seconds on an integer clock otherwise).
   */
  datatype ChannelCommentMapping = ChannelCommentMapping(channelChatId: int, linkedChatId: Option<int>, lastChecked: Option<int>)

  /** The tables, each in row order. */
  datatype Tables = Tables(
    chats: seq<Chat>,
    rules: seq<ForwardRule>,
    syncs: seq<RuleSync>,
    pushConfigs: seq<PushConfig>,
    mappings: seq<ChannelCommentMapping>)

  /** A rule row with the column defaults the schema declares. */
  function NewRule(id: int, sourceChatId: int, targetChatId: int): (r: ForwardRule)
    ensures r.id == id && r.sourceChatId == sourceChatId && r.targetChatId == targetChatId
    ensures r.enableRule && r.useBot
    ensures !r.enableCommentForward && !r.enableCommentContext && !r.enableSync && !r.enablePush
    ensures r.commentMessagePrefix == Some(DefaultCommentPrefix)
  {
    ForwardRule(id, sourceChatId, targetChatId,
      true, true,
      false, Some("原始连接：{original_link}"),
      false, Some("**{name}**"),
      false, Some("{time}"),
      false, Some(DefaultCommentPrefix), false,
      false, false,
      None, None)
  }

  // ------------------------------------------------------------ lookups

  /** Index of the first element satisfying `p`, as a query's `.first()` finds it. */
  function FindFirst<T>(s: seq<T>, p: T -> bool): (r: Option<nat>)
    ensures r.Some? ==> r.value < |s| && p(s[r.value])
    ensures r.Some? ==> forall k :: 0 <= k < r.value ==> !p(s[k])
    ensures r.None? ==> forall k :: 0 <= k < |s| ==> !p(s[k])
    decreases |s|
  {
    if |s| == 0 then None
    else if p(s[0]) then Some(0)
    else match FindFirst(s[1..], p)
      case None => None
      case Some(i) => Some(i + 1)
  }

  /**
   * A lookup gives the same answer on a table that only grew by rows that do
   * not match and whose old rows match exactly where they did before.
   */
  lemma FindFirstStable<T>(s: seq<T>, s': seq<T>, p: T -> bool)
    requires |s| <= |s'|
    requires forall k :: 0 <= k < |s| ==> p(s'[k]) == p(s[k])
    requires forall k :: |s| <= k < |s'| ==> !p(s'[k])
    ensures FindFirst(s', p) == FindFirst(s, p)
  {
    var r, r' := FindFirst(s, p), FindFirst(s', p);
    if r.Some? {
      assert p(s'[r.value]);
      assert r'.Some? && !(r'.value < r.value) && !(r.value < r'.value);
    } else {
      assert r'.None?;
    }
  }

  function ChatIndexById(chats: seq<Chat>, id: int): Option<nat> {
    FindFirst(chats, (c: Chat) => c.id == id)
  }

  function ChatIndexByTelegramId(chats: seq<Chat>, telegramChatId: string): Option<nat> {
    FindFirst(chats, (c: Chat) => c.telegramChatId == telegramChatId)
  }

  function RuleIndexById(rules: seq<ForwardRule>, id: int): (r: Option<nat>)
    ensures r.Some? ==> r.value < |rules| && rules[r.value].id == id
    ensures r.None? ==> forall k :: 0 <= k < |rules| ==> rules[k].id != id
  {
    FindFirst(rules, (r: ForwardRule) => r.id == id)
  }

  function MappingIndexByChannel(ms: seq<ChannelCommentMapping>, channelChatId: int): Option<nat> {
    FindFirst(ms, (m: ChannelCommentMapping) => m.channelChatId == channelChatId)
  }

  function MappingIndexByLinked(ms: seq<ChannelCommentMapping>, linkedChatId: int): Option<nat> {
    FindFirst(ms, (m: ChannelCommentMapping) => m.linkedChatId == Some(linkedChatId))
  }

  // ------------------------------------------------------------ constraints

  /** `chats.id` is the primary key. */
  predicate ChatIdsUnique(chats: seq<Chat>) {
    forall i, j :: 0 <= i < j < |chats| ==> chats[i].id != chats[j].id
  }

  /** `chats.telegram_chat_id` is unique (and, being a string column, never null). */
  predicate TelegramIdsUnique(chats: seq<Chat>) {
    forall i, j :: 0 <= i < j < |chats| ==> chats[i].telegramChatId != chats[j].telegramChatId
  }

  /** `forward_rules.id` is the primary key. */
  predicate RuleIdsUnique(rules: seq<ForwardRule>) {
    forall i, j :: 0 <= i < j < |rules| ==> rules[i].id != rules[j].id
  }

  /** The `unique_source_target` constraint. */
  predicate SourceTargetUnique(rules: seq<ForwardRule>) {
    forall i, j :: 0 <= i < j < |rules| ==>
      (rules[i].sourceChatId, rules[i].targetChatId) != (rules[j].sourceChatId, rules[j].targetChatId)
  }

  /** `channel_comment_mappings.channel_chat_id` is unique: one cache row per channel. */
  predicate MappingChannelsUnique(ms: seq<ChannelCommentMapping>) {
    forall i, j :: 0 <= i < j < |ms| ==> ms[i].channelChatId != ms[j].channelChatId
  }

  predicate IsChatId(chats: seq<Chat>, id: int) {
    exists k :: 0 <= k < |chats| && chats[k].id == id
  }

  /** Both mapping columns are foreign keys to `chats.id`; `linked_chat_id` may be null. */
  predicate MappingsReferenceChats(chats: seq<Chat>, ms: seq<ChannelCommentMapping>) {
    forall k :: 0 <= k < |ms| ==>
      IsChatId(chats, ms[k].channelChatId) &&
      (ms[k].linkedChatId.Some? ==> IsChatId(chats, ms[k].linkedChatId.value))
  }

  /** Every declared constraint the core relies on holds. */
  predicate ValidTables(t: Tables) {
    && ChatIdsUnique(t.chats)
    && TelegramIdsUnique(t.chats)
    && RuleIdsUnique(t.rules)
    && SourceTargetUnique(t.rules)
    && MappingChannelsUnique(t.mappings)
    && MappingsReferenceChats(t.chats, t.mappings)
  }

  /**
   * Inserting a chat row: the store refuses it (an integrity error, `None`)
   * when its primary key or its telegram id is already taken.
   */
  function InsertChat(chats: seq<Chat>, c: Chat): (r: Option<seq<Chat>>)
    ensures r.Some? <==>
      forall k :: 0 <= k < |chats| ==> chats[k].id != c.id && chats[k].telegramChatId != c.telegramChatId
    ensures r.Some? ==> r.value == chats + [c]
    ensures r.Some? && ChatIdsUnique(chats) && TelegramIdsUnique(chats) ==>
      ChatIdsUnique(r.value) && TelegramIdsUnique(r.value)
  {
    if ChatIndexById(chats, c.id).None? && ChatIndexByTelegramId(chats, c.telegramChatId).None?
    then Some(chats + [c])
    else None
  }

  /**
   * Inserting a rule row: refused when its id or its (source, target) pair is
   * already taken.
   */
  function InsertRule(rules: seq<ForwardRule>, r: ForwardRule): (res: Option<seq<ForwardRule>>)
    ensures res.Some? <==>
      forall k :: 0 <= k < |rules| ==>
        rules[k].id != r.id && (rules[k].sourceChatId, rules[k].targetChatId) != (r.sourceChatId, r.targetChatId)
    ensures res.Some? ==> res.value == rules + [r]
    ensures res.Some? && RuleIdsUnique(rules) && SourceTargetUnique(rules) ==>
      RuleIdsUnique(res.value) && SourceTargetUnique(res.value)
  {
    if RuleIndexById(rules, r.id).None? &&
       FindFirst(rules, (x: ForwardRule) => x.sourceChatId == r.sourceChatId && x.targetChatId == r.targetChatId).None?
    then Some(rules + [r])
    else None
  }

  /** With unique telegram ids, a lookup by telegram id finds the only such row. */
  lemma TelegramLookupIsOnlyMatch(chats: seq<Chat>, tg: string, k: nat)
    requires TelegramIdsUnique(chats)
    requires k < |chats| && chats[k].telegramChatId == tg
    ensures ChatIndexByTelegramId(chats, tg) == Some(k)
  {
    var r := ChatIndexByTelegramId(chats, tg);
    assert r.Some?;
    assert !(r.value < k) && !(k < r.value);
  }

  // ------------------------------------------------------------ sessions

  /**
   * A database session. `pending` is what this session's queries see: the
   * committed rows plus its own added or changed, not yet committed, rows.
   * `durable` is what the database holds committed.
   */
  class Session {
    var pending: Tables
    var durable: Tables
    var isOpen: bool

    constructor (db: Tables)
      ensures pending == db && durable == db && isOpen
    {
      pending := db;
      durable := db;
      isOpen := true;
    }

    /** The body's own writes: add, update, flush. */
    method Stage(t: Tables)
      modifies this
      ensures pending == t && durable == old(durable) && isOpen == old(isOpen)
    {
      pending := t;
    }

    /**
     * `session.commit()`; `ok` says whether the store accepts it. A refused
     * commit raises and changes nothing by itself: the caller rolls back.
     */
    method Commit(ok: bool) returns (committed: bool)
      modifies this
      ensures committed == ok
      ensures ok ==> durable == old(pending) && pending == old(pending)
      ensures !ok ==> durable == old(durable) && pending == old(pending)
      ensures isOpen == old(isOpen)
    {
      committed := ok;
      if ok {
        durable := pending;
      }
    }

    /** `session.rollback()`: every uncommitted write is dropped. */
    method Rollback()
      modifies this
      ensures pending == old(durable) && durable == old(durable) && isOpen == old(isOpen)
    {
      pending := durable;
    }

    /** `session.close()`: uncommitted work is discarded and the session ends. */
    method Close()
      modifies this
      ensures !isOpen && pending == old(durable) && durable == old(durable)
    {
      pending := durable;
      isOpen := false;
    }
  }

  /** How the body of a `with session_scope()` block ends, with the writes it made. */
  datatype BodyOutcome = Completes(tables: Tables) | Raises(tables: Tables)

  datatype ScopeOutcome = Committed | Reraised

  /**
   * `session_scope()`: run the body in a fresh session; commit if it
   * completes, otherwise (the body or the commit raised) roll back and raise
   * again; close the session in every case.
   */
  method SessionScope(db: Tables, body: Tables -> BodyOutcome, commitOk: bool)
    returns (outcome: ScopeOutcome, after: Tables, closed: bool)
    ensures closed
    ensures outcome == Committed <==> body(db).Completes? && commitOk
    ensures after == if outcome == Committed then body(db).tables else db
  {
    var session := new Session(db);
    var result := body(session.pending);
    session.Stage(result.tables);
    if result.Completes? {
      var ok := session.Commit(commitOk);
      if ok {
        outcome := Committed;
      } else {
        session.Rollback();
        outcome := Reraised;
      }
    } else {
      session.Rollback();
      outcome := Reraised;
    }
    session.Close();
    after := session.durable;
    closed := !session.isOpen;
  }
}
