/**
 * The user client's message handler (`handle_user_message`): it works out the
 * chat id a message is looked up under, drops repeated parts of a media group,
 * finds the chat's row, collects the forwarding jobs (the chat's own enabled
 * rules first, then the comment-forwarding rules of the channel whose
 * discussion group this chat is) and hands each job to the bot or the user
 * client. Also the `not_from_bot` event filter.
 *
 * The prompt-state handling ahead of it, the platform's answers and the clock
 * are parameters.
 */
module MessageListener {
  import opened Wrappers
  import opened Text
  import opened Models
  import opened CommentLinks

  /** Seconds a media group's key stays in the processed set (`clear_group_cache`'s delay). */
  const GroupCacheDelay: int := 300

  // ------------------------------------------------------------ the bot filter

  /** `event.sender_id` as the filter receives it. */
  datatype SenderValue = NoSender | IntSender(n: int) | TextSender(text: string)

  /**
   * `not_from_bot`: with the bot's id unknown every message passes; a sender
   * that converts with `int()` to the bot's id is rejected; a missing sender
   * or one that does not convert passes.
   */
  function NotFromBot(botId: Option<int>, sender: SenderValue): (pass: bool)
    ensures botId.None? ==> pass
    ensures sender.NoSender? ==> pass
    ensures sender.TextSender? && ParseInt(sender.text).None? ==> pass
    ensures botId.Some? && sender.IntSender? ==> (pass <==> sender.n != botId.value)
    ensures botId.Some? && sender.TextSender? && ParseInt(sender.text).Some? ==>
      (pass <==> ParseInt(sender.text).value != botId.value)
  {
    if botId.None? then true
    else match sender
      case NoSender => true
      case IntSender(n) => n != botId.value
      case TextSender(text) =>
        match ParseInt(text)
        case None => true
        case Some(n) => n != botId.value
  }

  /** The bot's own messages are rejected also when the id arrives as its decimal text. */
  lemma BotTextIdRejected(botId: int)
    ensures !NotFromBot(Some(botId), TextSender(IntToString(botId)))
  {
    IntToStringRoundTrip(botId);
  }

  // ------------------------------------------------------------ chat ids

  function Abs(n: int): nat {
    if n < 0 then -n else n
  }

  /** `int(f"100{a}")`: the channel form of an id, with the `100` mark in front. */
  function MarkChannelId(a: nat): (id: nat)
    ensures IntToString(id) == "100" + IntToString(a)
  {
    var u := "100" + NatToString(a);
    assert AllDigits(u) by {
      forall i | 0 <= i < |u| ensures IsDigit(u[i]) {
        if i >= 3 { assert u[i] == NatToString(a)[i - 3]; }
      }
    }
    CanonicalDigitsParse(u);
    ParseInt(u).value
  }

  /**
   * The chat id the message is handled under: the absolute value of the
   * platform's id, marked with `100` when a channel's message arrives while
   * a setting is awaited.
   */
  function ListenerChatId(rawId: int, isChannel: bool, stateActive: bool): (id: nat)
    ensures IntToString(id) == (if isChannel && stateActive then "100" else "") + IntToString(Abs(rawId))
  {
    if isChannel && stateActive then MarkChannelId(Abs(rawId)) else Abs(rawId)
  }

  // ------------------------------------------------------------ media groups

  /** `f"{chat_id}:{grouped_id}"`. */
  function GroupKey(chatId: int, groupedId: int): string {
    IntToString(chatId) + ":" + IntToString(groupedId)
  }

  /** Two parts share a key exactly when they come from the same chat and group. */
  lemma GroupKeyInjective(a: int, g: int, b: int, h: int)
    ensures GroupKey(a, g) == GroupKey(b, h) <==> a == b && g == h
  {
    if GroupKey(a, g) == GroupKey(b, h) {
      var key, x, y := GroupKey(a, g), IntToString(a), IntToString(b);
      IntToStringNoColon(a);
      IntToStringNoColon(b);
      IntToStringNoColon(g);
      IntToStringNoColon(h);
      assert key[|x|] == ':';
      var i := IndexOf(key, ':');
      assert forall j :: 0 <= j < |x| ==> key[j] == x[j];
      assert forall j :: 0 <= j < |y| ==> key[j] == y[j];
      assert forall j :: 0 <= j < i ==> key[..i][j] == key[j];
      assert i == |x| && i == |y|;
      assert x == key[..|x|] == y;
      assert IntToString(g) == key[|x| + 1..] == IntToString(h);
      IntToStringInjective(a, b);
      IntToStringInjective(g, h);
    }
  }

  /** A key is in the processed set at `now` until the timer for it fires. */
  predicate Live(groups: map<string, int>, key: string, now: int) {
    key in groups && now < groups[key]
  }

  /**
   * The media-group check: a message of a group (a truthy `grouped_id`) whose
   * key is live is a repeat and is dropped; otherwise its key is added, to be
   * removed `GroupCacheDelay` seconds later. Messages outside a group pass.
   */
  function Admit(groups: map<string, int>, chatId: int, groupedId: Option<int>, now: int): (r: (bool, map<string, int>))
    ensures r.0 <==> !(groupedId.Some? && groupedId.value != 0 && Live(groups, GroupKey(chatId, groupedId.value), now))
    ensures !r.0 ==> r.1 == groups
    ensures r.0 && groupedId.Some? && groupedId.value != 0 ==> Live(r.1, GroupKey(chatId, groupedId.value), now)
    ensures forall k :: k in groups ==> k in r.1
  {
    if groupedId.Some? && groupedId.value != 0 then
      var key := GroupKey(chatId, groupedId.value);
      if Live(groups, key, now) then (false, groups)
      else (true, groups[key := now + GroupCacheDelay])
    else (true, groups)
  }

  /**
   * Once a part of a group has been let through, every further part of the
   * same group from the same chat within `GroupCacheDelay` seconds is dropped,
   * and the first one after that passes again.
   */
  lemma RepeatPartsDropped(groups: map<string, int>, chatId: int, g: int, now: int, later: int)
    requires g != 0
    requires Admit(groups, chatId, Some(g), now).0
    ensures var after := Admit(groups, chatId, Some(g), now).1;
      now <= later < now + GroupCacheDelay ==> !Admit(after, chatId, Some(g), later).0
    ensures var after := Admit(groups, chatId, Some(g), now).1;
      later >= now + GroupCacheDelay ==> Admit(after, chatId, Some(g), later).0
  {
  }

  /**
   * Admitting a part touches only its own key; other chats' and groups'
   * parts are judged as before.
   */
  lemma AdmitOthersUnaffected(groups: map<string, int>, chatId: int, g: int, now: int,
                              otherChat: int, otherGroup: int, later: int)
    requires g != 0 && otherGroup != 0
    requires chatId != otherChat || g != otherGroup
    ensures var after := Admit(groups, chatId, Some(g), now).1;
      Admit(after, otherChat, Some(otherGroup), later).0 == Admit(groups, otherChat, Some(otherGroup), later).0
  {
    GroupKeyInjective(chatId, g, otherChat, otherGroup);
  }

  /** `clear_group_cache`: the timer for `key`, once due, discards it from the set. */
  function FireTimer(groups: map<string, int>, key: string, now: int): (r: map<string, int>)
    ensures forall k :: k in r ==> k in groups && r[k] == groups[k]
    ensures forall k :: k in groups && k !in r ==> k == key && groups[k] <= now
  {
    if key in groups && groups[key] <= now then groups - {key} else groups
  }

  /**
   * A timer that fires at or after its due time leaves the processed set, as
   * seen from then on, unchanged: the expiry times already account for it.
   */
  lemma FireTimerKeepsLive(groups: map<string, int>, key: string, now: int, later: int, other: string)
    requires now <= later
    ensures Live(FireTimer(groups, key, now), other, later) == Live(groups, other, later)
  {
    if other != key && other in groups {
      assert other in FireTimer(groups, key, now);
    }
  }

  // ------------------------------------------------------------ jobs

  /** An entry of `rules_to_process`. */
  datatype Job = Job(rule: ForwardRule, isComment: bool, parentChannelId: Option<int>, parentChannelTelegramId: Option<int>)

  /** A rule that forwards this chat's own messages. */
  predicate IsDirectRule(r: ForwardRule, chatDbId: int) {
    r.sourceChatId == chatDbId && r.enableRule
  }

  /** A rule of the channel that forwards its comments. */
  predicate IsCommentRule(r: ForwardRule, channelDbId: int) {
    r.sourceChatId == channelDbId && r.enableCommentForward && r.enableRule
  }

  /** The positions of the chat's direct rules among `rules`, in increasing order. */
  function DirectIndices(rules: seq<ForwardRule>, chatDbId: int): (idx: seq<nat>)
    ensures forall i :: 0 <= i < |idx| ==> idx[i] < |rules|
    decreases |rules|
  {
    if |rules| == 0 then []
    else
      var init := rules[..|rules| - 1];
      DirectIndices(init, chatDbId) + (if IsDirectRule(rules[|rules| - 1], chatDbId) then [|rules| - 1] else [])
  }

  /** The positions of the channel's comment-forwarding rules among `rules`, likewise. */
  function CommentIndices(rules: seq<ForwardRule>, channelDbId: int): (idx: seq<nat>)
    ensures forall i :: 0 <= i < |idx| ==> idx[i] < |rules|
    decreases |rules|
  {
    if |rules| == 0 then []
    else
      var init := rules[..|rules| - 1];
      CommentIndices(init, channelDbId) + (if IsCommentRule(rules[|rules| - 1], channelDbId) then [|rules| - 1] else [])
  }

  /**
   * The direct jobs: one per direct rule, in rule order, so a rule listed
   * twice gives two jobs.
   */
  function DirectJobs(rules: seq<ForwardRule>, chatDbId: int): (jobs: seq<Job>)
    ensures |jobs| <= |rules|
    ensures forall i :: 0 <= i < |jobs| ==>
      IsDirectRule(jobs[i].rule, chatDbId) && jobs[i].rule in rules &&
      !jobs[i].isComment && jobs[i].parentChannelId.None? && jobs[i].parentChannelTelegramId.None?
    ensures forall k :: 0 <= k < |rules| && IsDirectRule(rules[k], chatDbId) ==>
      Job(rules[k], false, None, None) in jobs
    decreases |rules|
  {
    if |rules| == 0 then []
    else
      var init, last := rules[..|rules| - 1], rules[|rules| - 1];
      var before := DirectJobs(init, chatDbId);
      assert forall k :: 0 <= k < |init| ==> init[k] == rules[k];
      if IsDirectRule(last, chatDbId) then before + [Job(last, false, None, None)] else before
  }

  /**
   * The comment jobs of `channelDbId`'s rules, one per rule in rule order,
   * each naming the channel and its telegram id.
   */
  function CommentJobs(rules: seq<ForwardRule>, channelDbId: int, parentTelegramId: Option<int>): (jobs: seq<Job>)
    ensures |jobs| <= |rules|
    ensures forall i :: 0 <= i < |jobs| ==>
      IsCommentRule(jobs[i].rule, channelDbId) && jobs[i].rule in rules &&
      jobs[i].isComment && jobs[i].parentChannelId == Some(channelDbId) &&
      jobs[i].parentChannelTelegramId == parentTelegramId
    ensures forall k :: 0 <= k < |rules| && IsCommentRule(rules[k], channelDbId) ==>
      Job(rules[k], true, Some(channelDbId), parentTelegramId) in jobs
    decreases |rules|
  {
    if |rules| == 0 then []
    else
      var init, last := rules[..|rules| - 1], rules[|rules| - 1];
      var before := CommentJobs(init, channelDbId, parentTelegramId);
      assert forall k :: 0 <= k < |init| ==> init[k] == rules[k];
      if IsCommentRule(last, channelDbId)
      then before + [Job(last, true, Some(channelDbId), parentTelegramId)]
      else before
  }

  /** The direct positions are exactly the direct rules' positions, strictly increasing. */
  lemma {:induction false} DirectIndicesSelect(rules: seq<ForwardRule>, chatDbId: int)
    ensures forall i :: 0 <= i < |DirectIndices(rules, chatDbId)| ==> IsDirectRule(rules[DirectIndices(rules, chatDbId)[i]], chatDbId)
    ensures forall i, j :: 0 <= i < j < |DirectIndices(rules, chatDbId)| ==> DirectIndices(rules, chatDbId)[i] < DirectIndices(rules, chatDbId)[j]
    ensures forall k :: 0 <= k < |rules| && IsDirectRule(rules[k], chatDbId) ==> k in DirectIndices(rules, chatDbId)
    decreases |rules|
  {
    if |rules| > 0 {
      var init := rules[..|rules| - 1];
      DirectIndicesSelect(init, chatDbId);
      var earlier, idx := DirectIndices(init, chatDbId), DirectIndices(rules, chatDbId);
      assert idx == earlier + if IsDirectRule(rules[|rules| - 1], chatDbId) then [|rules| - 1] else [];
      forall i | 0 <= i < |idx|
        ensures IsDirectRule(rules[idx[i]], chatDbId)
      {
        if i < |earlier| {
          assert idx[i] == earlier[i] && rules[earlier[i]] == init[earlier[i]];
          assert IsDirectRule(init[earlier[i]], chatDbId);
        } else {
          assert idx[i] == |rules| - 1;
        }
      }
      forall i, j | 0 <= i < j < |idx|
        ensures idx[i] < idx[j]
      {
        if j == |earlier| {
          assert idx[i] == earlier[i] < |init|;
        }
      }
      forall k | 0 <= k < |rules| && IsDirectRule(rules[k], chatDbId)
        ensures k in idx
      {
        if k < |init| {
          assert init[k] == rules[k];
        } else {
          assert idx[|idx| - 1] == k;
        }
      }
    }
  }

  /** The comment positions are exactly the comment-forwarding rules' positions, strictly increasing. */
  lemma {:induction false} CommentIndicesSelect(rules: seq<ForwardRule>, channelDbId: int)
    ensures forall i :: 0 <= i < |CommentIndices(rules, channelDbId)| ==> IsCommentRule(rules[CommentIndices(rules, channelDbId)[i]], channelDbId)
    ensures forall i, j :: 0 <= i < j < |CommentIndices(rules, channelDbId)| ==> CommentIndices(rules, channelDbId)[i] < CommentIndices(rules, channelDbId)[j]
    ensures forall k :: 0 <= k < |rules| && IsCommentRule(rules[k], channelDbId) ==> k in CommentIndices(rules, channelDbId)
    decreases |rules|
  {
    if |rules| > 0 {
      var init := rules[..|rules| - 1];
      CommentIndicesSelect(init, channelDbId);
      var earlier, idx := CommentIndices(init, channelDbId), CommentIndices(rules, channelDbId);
      assert idx == earlier + if IsCommentRule(rules[|rules| - 1], channelDbId) then [|rules| - 1] else [];
      forall i | 0 <= i < |idx|
        ensures IsCommentRule(rules[idx[i]], channelDbId)
      {
        if i < |earlier| {
          assert idx[i] == earlier[i] && rules[earlier[i]] == init[earlier[i]];
          assert IsCommentRule(init[earlier[i]], channelDbId);
        } else {
          assert idx[i] == |rules| - 1;
        }
      }
      forall i, j | 0 <= i < j < |idx|
        ensures idx[i] < idx[j]
      {
        if j == |earlier| {
          assert idx[i] == earlier[i] < |init|;
        }
      }
      forall k | 0 <= k < |rules| && IsCommentRule(rules[k], channelDbId)
        ensures k in idx
      {
        if k < |init| {
          assert init[k] == rules[k];
        } else {
          assert idx[|idx| - 1] == k;
        }
      }
    }
  }

  /**
   * Multiplicity and order of the direct jobs: the `i`-th job is the rule at
   * the `i`-th direct position, so the jobs are the direct rules in rule
   * order, a rule listed twice giving two jobs.
   */
  lemma {:induction false} DirectJobsInRuleOrder(rules: seq<ForwardRule>, chatDbId: int)
    ensures var jobs, idx := DirectJobs(rules, chatDbId), DirectIndices(rules, chatDbId);
      |jobs| == |idx| && forall i :: 0 <= i < |jobs| ==> jobs[i] == Job(rules[idx[i]], false, None, None)
    decreases |rules|
  {
    if |rules| > 0 {
      var init, last := rules[..|rules| - 1], rules[|rules| - 1];
      DirectJobsInRuleOrder(init, chatDbId);
      var before, earlier := DirectJobs(init, chatDbId), DirectIndices(init, chatDbId);
      var jobs, idx := DirectJobs(rules, chatDbId), DirectIndices(rules, chatDbId);
      var add := IsDirectRule(last, chatDbId);
      assert jobs == if add then before + [Job(last, false, None, None)] else before;
      assert idx == earlier + if add then [|rules| - 1] else [];
      forall i | 0 <= i < |jobs|
        ensures jobs[i] == Job(rules[idx[i]], false, None, None)
      {
        if i < |before| {
          assert jobs[i] == before[i] && idx[i] == earlier[i];
          assert rules[earlier[i]] == init[earlier[i]];
        } else {
          assert jobs[i] == Job(last, false, None, None) && idx[i] == |rules| - 1;
        }
      }
    }
  }

  /** The same for the comment jobs, each naming the channel and its telegram id. */
  lemma {:induction false} CommentJobsInRuleOrder(rules: seq<ForwardRule>, channelDbId: int, parentTelegramId: Option<int>)
    ensures var jobs, idx := CommentJobs(rules, channelDbId, parentTelegramId), CommentIndices(rules, channelDbId);
      |jobs| == |idx| &&
      forall i :: 0 <= i < |jobs| ==> jobs[i] == Job(rules[idx[i]], true, Some(channelDbId), parentTelegramId)
    decreases |rules|
  {
    if |rules| > 0 {
      var init, last := rules[..|rules| - 1], rules[|rules| - 1];
      CommentJobsInRuleOrder(init, channelDbId, parentTelegramId);
      var before, earlier := CommentJobs(init, channelDbId, parentTelegramId), CommentIndices(init, channelDbId);
      var jobs, idx := CommentJobs(rules, channelDbId, parentTelegramId), CommentIndices(rules, channelDbId);
      var add := IsCommentRule(last, channelDbId);
      assert jobs == if add then before + [Job(last, true, Some(channelDbId), parentTelegramId)] else before;
      assert idx == earlier + if add then [|rules| - 1] else [];
      forall i | 0 <= i < |jobs|
        ensures jobs[i] == Job(rules[idx[i]], true, Some(channelDbId), parentTelegramId)
      {
        if i < |before| {
          assert jobs[i] == before[i] && idx[i] == earlier[i];
          assert rules[earlier[i]] == init[earlier[i]];
        } else {
          assert jobs[i] == Job(last, true, Some(channelDbId), parentTelegramId) && idx[i] == |rules| - 1;
        }
      }
    }
  }

  /** Some direct rule forwards comments: the condition for warming the link cache. */
  predicate AnyCommentForward(jobs: seq<Job>) {
    exists i :: 0 <= i < |jobs| && jobs[i].rule.enableCommentForward
  }

  /** The channel has a rule forwarding its comments. */
  predicate HasCommentRules(rules: seq<ForwardRule>, channelDbId: int) {
    exists k :: 0 <= k < |rules| && IsCommentRule(rules[k], channelDbId)
  }

  /** The job list, or `Failed` when an exception ends the handler before dispatch. */
  datatype Resolution = Jobs(jobs: seq<Job>) | Failed

  /**
   * The comment part: the first mapping whose discussion group is this chat
   * names the channel; when the channel has comment rules its telegram id is
   * read with `int()` (raising, hence `Failed`, when that text is not a number).
   */
  /** The channel's telegram id as `int()` reads it: `None` without a chat row, `Failed` when the text is no number. */
  function ParentTelegramId(chats: seq<Chat>, channel: int): Option<Option<int>>
  {
    match ChatIndexById(chats, channel)
    case None => Some(None)
    case Some(ci) =>
      match ParseInt(chats[ci].telegramChatId)
      case None => None
      case Some(tg) => Some(Some(tg))
  }

  function CommentPart(t: Tables, chatDbId: int): (r: Resolution)
    ensures MappingIndexByLinked(t.mappings, chatDbId).None? ==> r == Jobs([])
    ensures var mi := MappingIndexByLinked(t.mappings, chatDbId);
      mi.Some? ==>
        var channel := t.mappings[mi.value].channelChatId;
        && (r.Failed? <==> HasCommentRules(t.rules, channel) && ParentTelegramId(t.chats, channel).None?)
        && (!HasCommentRules(t.rules, channel) ==> r == Jobs([]))
        && (r.Jobs? && HasCommentRules(t.rules, channel) ==>
              r.jobs == CommentJobs(t.rules, channel, ParentTelegramId(t.chats, channel).value))
    ensures r.Jobs? ==> forall i :: 0 <= i < |r.jobs| ==> r.jobs[i].isComment
    ensures var mi := MappingIndexByLinked(t.mappings, chatDbId);
      r.Jobs? && mi.Some? ==>
        var channel := t.mappings[mi.value].channelChatId;
        && (forall i :: 0 <= i < |r.jobs| ==>
              IsCommentRule(r.jobs[i].rule, channel) && r.jobs[i].parentChannelId == Some(channel))
        && (forall k :: 0 <= k < |t.rules| && IsCommentRule(t.rules[k], channel) ==>
              exists i :: 0 <= i < |r.jobs| && r.jobs[i].rule == t.rules[k])
  {
    match MappingIndexByLinked(t.mappings, chatDbId)
    case None => Jobs([])
    case Some(mi) =>
      var channel := t.mappings[mi].channelChatId;
      if !HasCommentRules(t.rules, channel) then Jobs([])
      else match ParentTelegramId(t.chats, channel)
        case None => Failed
        case Some(tg) => Jobs(CommentJobs(t.rules, channel, tg))
  }

  /**
   * The cache warm-up as intended: a manager on the handler's own session
   * resolves the chat's discussion group; whatever it raises is swallowed and
   * only the session state it leaves matters.
   */
  function WarmUp(db: Db, chatDbId: int, now: int, remote: RemoteOutcome, flushOk: bool, commitOk: bool): Db {
    GetLinked(db, chatDbId, now, remote, flushOk, commitOk).db
  }

  /**
   * The warm-up as written: `CommentManager(user_client)` passes the client
   * alone where `__init__` takes the session and the client, so the
   * constructor raises `TypeError`, the handler swallows it and nothing is
   * looked up or written.
   */
  function WarmUpAsWritten(db: Db, chatDbId: int, now: int, remote: RemoteOutcome, flushOk: bool, commitOk: bool): Db {
    db
  }

  /**
   * Rule resolution for a found chat: the direct jobs, the warm-up when one
   * of them forwards comments, then the comment jobs read after it. Also the
   * session state it leaves.
   */
  function Resolve(t: Tables, chat: Chat, now: int, remote: RemoteOutcome, flushOk: bool, commitOk: bool): (r: (Resolution, Db))
    ensures !AnyCommentForward(DirectJobs(t.rules, chat.id)) ==> r.1 == Db(t, t)
    ensures r.1.durable == t || r.1.pending == r.1.durable
    ensures r.0.Jobs? ==>
      |DirectJobs(t.rules, chat.id)| <= |r.0.jobs| && r.0.jobs[..|DirectJobs(t.rules, chat.id)|] == DirectJobs(t.rules, chat.id)
  {
    var direct := DirectJobs(t.rules, chat.id);
    var db := if AnyCommentForward(direct) then WarmUp(Db(t, t), chat.id, now, remote, flushOk, commitOk) else Db(t, t);
    match CommentPart(db.pending, chat.id)
    case Failed => (Failed, db)
    case Jobs(comment) => (Jobs(direct + comment), db)
  }

  /** The same with the warm-up as written. */
  function ResolveAsWritten(t: Tables, chat: Chat, now: int, remote: RemoteOutcome, flushOk: bool, commitOk: bool): (Resolution, Db)
  {
    var direct := DirectJobs(t.rules, chat.id);
    var db := if AnyCommentForward(direct) then WarmUpAsWritten(Db(t, t), chat.id, now, remote, flushOk, commitOk) else Db(t, t);
    match CommentPart(db.pending, chat.id)
    case Failed => (Failed, db)
    case Jobs(comment) => (Jobs(direct + comment), db)
  }


  // ------------------------------------------------------------ job properties

  /**
   * Direct jobs followed by comment jobs: the non-comment jobs are exactly
   * the chat's enabled rules with no parent, and every comment job comes
   * after every direct one.
   */
  lemma DirectThenComment(rules: seq<ForwardRule>, chatDbId: int, comment: seq<Job>)
    requires forall i :: 0 <= i < |comment| ==> comment[i].isComment
    ensures var jobs := DirectJobs(rules, chatDbId) + comment;
      && (forall i :: 0 <= i < |jobs| && !jobs[i].isComment ==>
            IsDirectRule(jobs[i].rule, chatDbId) && jobs[i].parentChannelId.None?)
      && (forall k :: 0 <= k < |rules| && IsDirectRule(rules[k], chatDbId) ==>
            Job(rules[k], false, None, None) in jobs)
      && (forall i, j :: 0 <= i < j < |jobs| && jobs[i].isComment ==> jobs[j].isComment)
  {
    var direct := DirectJobs(rules, chatDbId);
    var jobs := direct + comment;
    forall i | 0 <= i < |jobs| && !jobs[i].isComment
      ensures IsDirectRule(jobs[i].rule, chatDbId) && jobs[i].parentChannelId.None?
    {
      assert i < |direct|;
    }
    forall k | 0 <= k < |rules| && IsDirectRule(rules[k], chatDbId)
      ensures Job(rules[k], false, None, None) in jobs
    {
      var c :| 0 <= c < |direct| && direct[c] == Job(rules[k], false, None, None);
      assert jobs[c] == direct[c];
    }
    forall i, j | 0 <= i < j < |jobs| && jobs[i].isComment
      ensures jobs[j].isComment
    {
      assert jobs[j] == comment[j - |direct|];
    }
  }

  /**
   * The job list: every direct job is one of the chat's enabled rules with no
   * parent, every such rule has its job, and all direct jobs come before all
   * comment jobs.
   */
  lemma DirectJobsFirst(t: Tables, chat: Chat, now: int, remote: RemoteOutcome, flushOk: bool, commitOk: bool)
    requires Resolve(t, chat, now, remote, flushOk, commitOk).0.Jobs?
    ensures var jobs := Resolve(t, chat, now, remote, flushOk, commitOk).0.jobs;
      && (forall i :: 0 <= i < |jobs| && !jobs[i].isComment ==>
            IsDirectRule(jobs[i].rule, chat.id) && jobs[i].parentChannelId.None?)
      && (forall k :: 0 <= k < |t.rules| && IsDirectRule(t.rules[k], chat.id) ==>
            Job(t.rules[k], false, None, None) in jobs)
      && (forall i, j :: 0 <= i < j < |jobs| && jobs[i].isComment ==> jobs[j].isComment)
  {
    var db := Resolve(t, chat, now, remote, flushOk, commitOk).1;
    var cp := CommentPart(db.pending, chat.id);
    DirectThenComment(t.rules, chat.id, cp.jobs);
  }

  /**
   * Comment jobs after jobs that are not comments: the comment jobs are the
   * comment part of `t'` for the chat, with its guarantees.
   */
  lemma CommentsAppended(direct: seq<Job>, t': Tables, chatDbId: int)
    requires forall i :: 0 <= i < |direct| ==> !direct[i].isComment
    requires CommentPart(t', chatDbId).Jobs?
    ensures var jobs := direct + CommentPart(t', chatDbId).jobs;
      var mi := MappingIndexByLinked(t'.mappings, chatDbId);
      && (mi.None? ==> forall i :: 0 <= i < |jobs| ==> !jobs[i].isComment)
      && (mi.Some? ==>
            var channel := t'.mappings[mi.value].channelChatId;
            && (forall i :: 0 <= i < |jobs| && jobs[i].isComment ==>
                  IsCommentRule(jobs[i].rule, channel) && jobs[i].parentChannelId == Some(channel))
            && (forall k :: 0 <= k < |t'.rules| && IsCommentRule(t'.rules[k], channel) ==>
                  exists i :: 0 <= i < |jobs| && jobs[i].isComment && jobs[i].rule == t'.rules[k]))
  {
    var cp := CommentPart(t', chatDbId).jobs;
    var jobs := direct + cp;
    var mi := MappingIndexByLinked(t'.mappings, chatDbId);
    if mi.Some? {
      var channel := t'.mappings[mi.value].channelChatId;
      forall i | 0 <= i < |jobs| && jobs[i].isComment
        ensures IsCommentRule(jobs[i].rule, channel) && jobs[i].parentChannelId == Some(channel)
      {
        assert i >= |direct| && jobs[i] == cp[i - |direct|];
      }
      forall k | 0 <= k < |t'.rules| && IsCommentRule(t'.rules[k], channel)
        ensures exists i :: 0 <= i < |jobs| && jobs[i].isComment && jobs[i].rule == t'.rules[k]
      {
        var c :| 0 <= c < |cp| && cp[c].rule == t'.rules[k];
        assert jobs[|direct| + c] == cp[c];
      }
    }
  }

  /**
   * The comment jobs come from the first mapping whose discussion group is
   * this chat, in the tables as the warm-up left them: each is a rule of that
   * channel forwarding comments, tagged with the channel, and every such rule
   * has its job. Without such a mapping there is none.
   */
  lemma CommentJobsFromMapping(t: Tables, chat: Chat, now: int, remote: RemoteOutcome, flushOk: bool, commitOk: bool)
    requires Resolve(t, chat, now, remote, flushOk, commitOk).0.Jobs?
    ensures var (res, db) := Resolve(t, chat, now, remote, flushOk, commitOk);
      var mi := MappingIndexByLinked(db.pending.mappings, chat.id);
      && (mi.None? ==> forall i :: 0 <= i < |res.jobs| ==> !res.jobs[i].isComment)
      && (mi.Some? ==>
            var channel := db.pending.mappings[mi.value].channelChatId;
            && (forall i :: 0 <= i < |res.jobs| && res.jobs[i].isComment ==>
                  IsCommentRule(res.jobs[i].rule, channel) && res.jobs[i].parentChannelId == Some(channel))
            && (forall k :: 0 <= k < |db.pending.rules| && IsCommentRule(db.pending.rules[k], channel) ==>
                  exists i :: 0 <= i < |res.jobs| && res.jobs[i].isComment && res.jobs[i].rule == db.pending.rules[k]))
  {
    var db := Resolve(t, chat, now, remote, flushOk, commitOk).1;
    CommentsAppended(DirectJobs(t.rules, chat.id), db.pending, chat.id);
  }

  // ------------------------------------------------------------ the warm-up

  /** No cache row names its own channel as the discussion group. */
  predicate NoSelfLinks(ms: seq<ChannelCommentMapping>) {
    forall k :: 0 <= k < |ms| ==> ms[k].linkedChatId != Some(ms[k].channelChatId)
  }

  /** The platform does not name the chat `chatDbId` as its own discussion group. */
  predicate NotOwnGroup(chats: seq<Chat>, chatDbId: int, remote: RemoteOutcome) {
    remote.Linked? ==>
      forall k :: 0 <= k < |chats| && chats[k].id == chatDbId ==> chats[k].telegramChatId != IntToString(remote.linkedId)
  }

  /**
   * `p` is `t` after writes that cannot change rule resolution for the chat
   * `x`: the rules are the same, chats were only added under new ids, and the
   * cache rows keep their channels and whether they point at `x`, with no new
   * row pointing at `x`.
   */
  predicate KeepsResolution(t: Tables, p: Tables, x: int) {
    && p.rules == t.rules
    && |t.chats| <= |p.chats|
    && (forall k :: 0 <= k < |t.chats| ==> p.chats[k] == t.chats[k])
    && (forall k, j :: |t.chats| <= k < |p.chats| && 0 <= j < |t.chats| ==> p.chats[k].id != t.chats[j].id)
    && |t.mappings| <= |p.mappings|
    && (forall k :: 0 <= k < |t.mappings| ==>
          p.mappings[k].channelChatId == t.mappings[k].channelChatId &&
          (p.mappings[k].linkedChatId == Some(x) <==> t.mappings[k].linkedChatId == Some(x)))
    && (forall k :: |t.mappings| <= k < |p.mappings| ==> p.mappings[k].linkedChatId != Some(x))
  }

  /** The comment part reads only the chat's mapping, the channel's rules and the channel's chat row. */
  lemma CommentPartReads(t: Tables, p: Tables, x: int)
    requires p.rules == t.rules
    requires MappingIndexByLinked(p.mappings, x) == MappingIndexByLinked(t.mappings, x)
    requires var mi := MappingIndexByLinked(t.mappings, x);
      mi.Some? ==>
        var channel := t.mappings[mi.value].channelChatId;
        && p.mappings[mi.value].channelChatId == channel
        && ChatIndexById(p.chats, channel) == ChatIndexById(t.chats, channel)
        && var ci := ChatIndexById(t.chats, channel);
           ci.Some? ==> p.chats[ci.value] == t.chats[ci.value]
    ensures CommentPart(p, x) == CommentPart(t, x)
  {
    var mi := MappingIndexByLinked(t.mappings, x);
    if mi.Some? {
      var channel := t.mappings[mi.value].channelChatId;
      assert ParentTelegramId(p.chats, channel) == ParentTelegramId(t.chats, channel);
    }
  }

  lemma CommentPartStable(t: Tables, p: Tables, x: int)
    requires ValidTables(t) && KeepsResolution(t, p, x)
    ensures CommentPart(p, x) == CommentPart(t, x)
  {
    FindFirstStable(t.mappings, p.mappings, (m: ChannelCommentMapping) => m.linkedChatId == Some(x));
    var mi := MappingIndexByLinked(t.mappings, x);
    if mi.Some? {
      var channel := t.mappings[mi.value].channelChatId;
      assert IsChatId(t.chats, channel);
      var j :| 0 <= j < |t.chats| && t.chats[j].id == channel;
      assert forall k :: |t.chats| <= k < |p.chats| ==> p.chats[k].id != channel;
      FindFirstStable(t.chats, p.chats, (c: Chat) => c.id == channel);
    }
    CommentPartReads(t, p, x);
  }

  /** An upsert for `x` that does not point `x` at itself, possibly after adding one chat under a new id. */
  lemma UpsertKeepsResolution(t: Tables, chats': seq<Chat>, x: int, linked: Option<int>, now: int)
    requires NoSelfLinks(t.mappings)
    requires linked != Some(x)
    requires chats' == t.chats || (|chats'| == |t.chats| + 1 && chats'[..|t.chats|] == t.chats &&
      forall j :: 0 <= j < |t.chats| ==> chats'[|t.chats|].id != t.chats[j].id)
    ensures KeepsResolution(t, t.(chats := chats', mappings := Upsert(t.mappings, x, linked, now)), x)
  {
    if chats' != t.chats {
      assert forall k :: 0 <= k < |t.chats| ==> chats'[k] == chats'[..|t.chats|][k];
    }
  }

  /**
   * Whatever the platform answers and whether or not the writes go through,
   * the warm-up for the chat `x` leaves tables in which rule resolution for
   * `x` is unchanged, as long as no cache row and no answer links a channel
   * to itself.
   */
  lemma WarmUpKeepsResolution(t: Tables, x: int, now: int, remote: RemoteOutcome, flushOk: bool, commitOk: bool)
    requires ValidTables(t) && IsChatId(t.chats, x)
    requires NoSelfLinks(t.mappings) && NotOwnGroup(t.chats, x, remote)
    ensures KeepsResolution(t, WarmUp(Db(t, t), x, now, remote, flushOk, commitOk).pending, x)
  {
    var p := WarmUp(Db(t, t), x, now, remote, flushOk, commitOk).pending;
    if !commitOk {
      FailedCommitKeepsCommitted(Db(t, t), x, now, remote, flushOk);
    } else if x != 0 && !HasFreshRow(t.mappings, x, now) && ChannelQueryable(t.chats, x) {
      match remote
      case NoLink =>
        assert p == t.(mappings := Upsert(t.mappings, x, None, now));
        UpsertKeepsResolution(t, t.chats, x, None, now);
      case Linked(tg, entities) =>
        WarmUpLinkedKeepsResolution(t, x, now, tg, entities, flushOk);
      case FloodWait(seconds) =>
        FloodWaitWritesNothing(Db(t, t), x, now, seconds, flushOk, commitOk);
      case _ =>
        FailedQueryWritesNothing(Db(t, t), x, now, remote, flushOk, commitOk);
    } else {
      assert p == t;
    }
  }

  lemma WarmUpLinkedKeepsResolution(t: Tables, x: int, now: int, tg: int, entities: seq<ChatEntity>, flushOk: bool)
    requires ValidTables(t) && IsChatId(t.chats, x)
    requires x != 0 && !HasFreshRow(t.mappings, x, now) && ChannelQueryable(t.chats, x)
    requires NoSelfLinks(t.mappings) && NotOwnGroup(t.chats, x, Linked(tg, entities))
    ensures KeepsResolution(t, WarmUp(Db(t, t), x, now, Linked(tg, entities), flushOk, true).pending, x)
  {
    var p := WarmUp(Db(t, t), x, now, Linked(tg, entities), flushOk, true).pending;
    var text := IntToString(tg);
    var li := ChatIndexByTelegramId(t.chats, text);
    if li.Some? {
      var linked := Some(t.chats[li.value].id);
      assert p == t.(mappings := Upsert(t.mappings, x, linked, now));
      assert t.chats[li.value].telegramChatId == text;
      UpsertKeepsResolution(t, t.chats, x, linked, now);
    } else {
      var newChat := Chat(NextChatId(t.chats), text, TitleOf(entities, tg));
      if flushOk && InsertChat(t.chats, newChat).Some? {
        var chats' := t.chats + [newChat];
        assert p == t.(chats := chats', mappings := Upsert(t.mappings, x, Some(newChat.id), now));
        var j :| 0 <= j < |t.chats| && t.chats[j].id == x;
        assert chats'[..|t.chats|] == t.chats;
        UpsertKeepsResolution(t, chats', x, Some(newChat.id), now);
      } else {
        assert p == t;
      }
    }
  }

  /**
   * The warm-up never changes the job list: resolving with it (as intended)
   * gives the jobs resolving with the warm-up as written (which does nothing)
   * gives.
   */
  lemma WarmUpKeepsJobs(t: Tables, chat: Chat, now: int, remote: RemoteOutcome, flushOk: bool, commitOk: bool)
    requires ValidTables(t) && chat in t.chats
    requires NoSelfLinks(t.mappings) && NotOwnGroup(t.chats, chat.id, remote)
    ensures Resolve(t, chat, now, remote, flushOk, commitOk).0 == ResolveAsWritten(t, chat, now, remote, flushOk, commitOk).0
  {
    var k :| 0 <= k < |t.chats| && t.chats[k] == chat;
    assert IsChatId(t.chats, chat.id);
    if AnyCommentForward(DirectJobs(t.rules, chat.id)) {
      WarmUpKeepsResolution(t, chat.id, now, remote, flushOk, commitOk);
      CommentPartStable(t, WarmUp(Db(t, t), chat.id, now, remote, flushOk, commitOk).pending, chat.id);
    }
  }

  /**
   * What the warm-up was for: as written it leaves a stale channel's cache
   * row stale, where the intended call stores the platform's "no group" answer
   * with the current time.
   */
  lemma WarmUpAsWrittenNeverCaches(t: Tables, chat: Chat, now: int, flushOk: bool)
    requires chat.id != 0 && !HasFreshRow(t.mappings, chat.id, now) && ChannelQueryable(t.chats, chat.id)
    requires AnyCommentForward(DirectJobs(t.rules, chat.id))
    ensures !HasFreshRow(ResolveAsWritten(t, chat, now, NoLink, flushOk, true).1.durable.mappings, chat.id, now)
    ensures HasFreshRow(Resolve(t, chat, now, NoLink, flushOk, true).1.durable.mappings, chat.id, now)
  {
    NoLinkIsCached(Db(t, t), chat.id, now, flushOk);
  }

  // ------------------------------------------------------------ dispatch

  datatype Client = BotClient | UserClient

  /** The `comment_metadata` handed on with a comment job; the message id is filled in downstream. */
  datatype CommentMetadata = CommentMetadata(isComment: bool, originalChannelChatId: Option<int>, originalMessageId: Option<int>)

  /** One call of `process_forward_rule`: the client, the chat id as text, the rule and the metadata. */
  datatype Dispatch = Dispatch(client: Client, chatIdText: string, rule: ForwardRule, metadata: Option<CommentMetadata>)

  function ToDispatch(job: Job, chatIdText: string): Dispatch {
    Dispatch(
      if job.rule.useBot then BotClient else UserClient,
      chatIdText,
      job.rule,
      if job.isComment then Some(CommentMetadata(true, job.parentChannelTelegramId, None)) else None)
  }

  /**
   * The calls made for a job list, one per job in order: the bot client for
   * a rule with `use_bot`, the user client otherwise; metadata naming the
   * parent channel's telegram id for a comment job, none for a direct one.
   */
  function Dispatches(jobs: seq<Job>, chatIdText: string): (ds: seq<Dispatch>)
    ensures |ds| == |jobs|
    ensures forall i :: 0 <= i < |jobs| ==>
      && ds[i].rule == jobs[i].rule && ds[i].chatIdText == chatIdText
      && (ds[i].client == BotClient <==> jobs[i].rule.useBot)
      && (ds[i].metadata.Some? <==> jobs[i].isComment)
      && (jobs[i].isComment ==> ds[i].metadata == Some(CommentMetadata(true, jobs[i].parentChannelTelegramId, None)))
    decreases |jobs|
  {
    if |jobs| == 0 then []
    else Dispatches(jobs[..|jobs| - 1], chatIdText) + [ToDispatch(jobs[|jobs| - 1], chatIdText)]
  }

  // ------------------------------------------------------------ the handler

  /** What the handler needs of the incoming message. */
  datatype Event = Event(rawChatId: int, isChannel: bool, groupedId: Option<int>)

  /** How `handle_user_message` ends. */
  datatype Handled =
    | PromptHandled               // the awaited setting consumed the message
    | RepeatedGroupPart           // a further part of a media group already handled
    | UnknownChat                 // no chat row for the id
    | NoJobs                      // no rule applies
    | Raised                      // an exception ended the handler; it is logged
    | Dispatched(dispatches: seq<Dispatch>)

  /**
   * The handler: the outcome, the processed set afterwards and the committed
   * tables afterwards. `promptHandled` says whether an awaited setting
   * consumed the message.
   */
  function Handle(groups: map<string, int>, ev: Event, stateActive: bool, promptHandled: bool, now: int,
                  t: Tables, remote: RemoteOutcome, flushOk: bool, commitOk: bool): (r: (Handled, map<string, int>, Tables))
    ensures r.0.PromptHandled? <==> promptHandled
    ensures r.0.RepeatedGroupPart? <==>
      !promptHandled && !Admit(groups, ListenerChatId(ev.rawChatId, ev.isChannel, stateActive), ev.groupedId, now).0
    ensures r.0.PromptHandled? || r.0.RepeatedGroupPart? || r.0.UnknownChat? ==> r.2 == t
    ensures r.0.PromptHandled? || r.0.RepeatedGroupPart? ==> r.1 == groups
  {
    var chatId := ListenerChatId(ev.rawChatId, ev.isChannel, stateActive);
    if promptHandled then (PromptHandled, groups, t)
    else
      var (admitted, groups') := Admit(groups, chatId, ev.groupedId, now);
      if !admitted then (RepeatedGroupPart, groups', t)
      else
        var (h, after) := HandleChat(t, chatId, now, remote, flushOk, commitOk);
        (h, groups', after)
  }

  /** The part after the media-group check: find the chat, resolve, dispatch; and the committed tables then. */
  function HandleChat(t: Tables, chatId: int, now: int, remote: RemoteOutcome, flushOk: bool, commitOk: bool): (r: (Handled, Tables))
    ensures !r.0.PromptHandled? && !r.0.RepeatedGroupPart?
    ensures r.0.UnknownChat? <==> ChatIndexByTelegramId(t.chats, IntToString(chatId)).None?
    ensures r.0.UnknownChat? ==> r.1 == t
    ensures r.0.Dispatched? ==> |r.0.dispatches| > 0
  {
    match ChatIndexByTelegramId(t.chats, IntToString(chatId))
    case None => (UnknownChat, t)
    case Some(ci) =>
      var (res, db) := Resolve(t, t.chats[ci], now, remote, flushOk, commitOk);
      match res
      case Failed => (Raised, db.durable)
      case Jobs(jobs) =>
        if |jobs| == 0 then (NoJobs, db.durable)
        else (Dispatched(Dispatches(jobs, IntToString(chatId))), db.durable)
  }

  /** Without a chat row for the id, nothing is dispatched and nothing is written. */
  lemma UnknownChatDispatchesNothing(groups: map<string, int>, ev: Event, stateActive: bool, promptHandled: bool, now: int,
                                     t: Tables, remote: RemoteOutcome, flushOk: bool, commitOk: bool)
    requires ChatIndexByTelegramId(t.chats, IntToString(ListenerChatId(ev.rawChatId, ev.isChannel, stateActive))).None?
    ensures var (h, _, after) := Handle(groups, ev, stateActive, promptHandled, now, t, remote, flushOk, commitOk);
      !h.Dispatched? && after == t
  {
  }

  /**
   * A repeated part of a media group returns before any table is read: no
   * dispatch, no write, and the processed set is unchanged.
   */
  lemma RepeatedPartReadsNothing(groups: map<string, int>, ev: Event, stateActive: bool, now: int,
                                 t: Tables, remote: RemoteOutcome, flushOk: bool, commitOk: bool)
    requires ev.groupedId.Some? && ev.groupedId.value != 0
    requires Live(groups, GroupKey(ListenerChatId(ev.rawChatId, ev.isChannel, stateActive), ev.groupedId.value), now)
    ensures Handle(groups, ev, stateActive, false, now, t, remote, flushOk, commitOk) == (RepeatedGroupPart, groups, t)
  {
  }

  /** Handling a message keeps the schema's constraints on the committed tables. */
  lemma HandleKeepsTablesValid(groups: map<string, int>, ev: Event, stateActive: bool, promptHandled: bool, now: int,
                               t: Tables, remote: RemoteOutcome, flushOk: bool, commitOk: bool)
    requires ValidTables(t)
    ensures ValidTables(Handle(groups, ev, stateActive, promptHandled, now, t, remote, flushOk, commitOk).2)
  {
    var chatId := ListenerChatId(ev.rawChatId, ev.isChannel, stateActive);
    HandleChatKeepsTablesValid(t, chatId, now, remote, flushOk, commitOk);
  }

  /** Resolution leaves committed tables that keep the schema's constraints. */
  lemma ResolveKeepsTablesValid(t: Tables, chat: Chat, now: int, remote: RemoteOutcome, flushOk: bool, commitOk: bool)
    requires ValidTables(t)
    ensures ValidTables(Resolve(t, chat, now, remote, flushOk, commitOk).1.durable)
  {
    GetLinkedKeepsTablesValid(Db(t, t), chat.id, now, remote, flushOk, commitOk);
  }

  /** So does the handler from the chat lookup on. */
  lemma HandleChatKeepsTablesValid(t: Tables, chatId: int, now: int, remote: RemoteOutcome, flushOk: bool, commitOk: bool)
    requires ValidTables(t)
    ensures ValidTables(HandleChat(t, chatId, now, remote, flushOk, commitOk).1)
  {
    var ci := ChatIndexByTelegramId(t.chats, IntToString(chatId));
    if ci.Some? {
      ResolveKeepsTablesValid(t, t.chats[ci.value], now, remote, flushOk, commitOk);
    }
  }

  // ------------------------------------------------------------ the loops

  /** The query for the chat's enabled rules and the loop appending their jobs; also whether one forwards comments. */
  method CollectDirect(rules: seq<ForwardRule>, chatDbId: int) returns (jobs: seq<Job>, anyCommentForward: bool)
    ensures jobs == DirectJobs(rules, chatDbId)
    ensures anyCommentForward == AnyCommentForward(jobs)
  {
    jobs, anyCommentForward := [], false;
    var i := 0;
    while i < |rules|
      invariant 0 <= i <= |rules|
      invariant jobs == DirectJobs(rules[..i], chatDbId)
      invariant anyCommentForward == AnyCommentForward(jobs)
    {
      assert rules[..i + 1][..i] == rules[..i];
      var rule := rules[i];
      if IsDirectRule(rule, chatDbId) {
        jobs := jobs + [Job(rule, false, None, None)];
        anyCommentForward := anyCommentForward || rule.enableCommentForward;
      }
      i := i + 1;
    }
    assert rules[..i] == rules;
  }

  /** The query for the channel's comment-forwarding rules and the loop appending their jobs. */
  method CollectComment(rules: seq<ForwardRule>, channelDbId: int, parentTelegramId: Option<int>) returns (jobs: seq<Job>)
    ensures jobs == CommentJobs(rules, channelDbId, parentTelegramId)
  {
    jobs := [];
    var i := 0;
    while i < |rules|
      invariant 0 <= i <= |rules|
      invariant jobs == CommentJobs(rules[..i], channelDbId, parentTelegramId)
    {
      assert rules[..i + 1][..i] == rules[..i];
      if IsCommentRule(rules[i], channelDbId) {
        jobs := jobs + [Job(rules[i], true, Some(channelDbId), parentTelegramId)];
      }
      i := i + 1;
    }
    assert rules[..i] == rules;
  }

  /** The dispatch loop over the jobs, in order. */
  method PlanDispatches(jobs: seq<Job>, chatIdText: string) returns (ds: seq<Dispatch>)
    ensures ds == Dispatches(jobs, chatIdText)
  {
    ds := [];
    var i := 0;
    while i < |jobs|
      invariant 0 <= i <= |jobs|
      invariant ds == Dispatches(jobs[..i], chatIdText)
    {
      assert jobs[..i + 1][..i] == jobs[..i];
      var job := jobs[i];
      var client := if job.rule.useBot then BotClient else UserClient;
      var metadata := if job.isComment then Some(CommentMetadata(true, job.parentChannelTelegramId, None)) else None;
      ds := ds + [Dispatch(client, chatIdText, job.rule, metadata)];
      i := i + 1;
    }
    assert jobs[..i] == jobs;
  }

  /** The comment-rule lookup of the handler, on the tables its session sees. */
  method CollectCommentPart(t: Tables, chatDbId: int) returns (r: Resolution)
    ensures r == CommentPart(t, chatDbId)
  {
    var mi := MappingIndexByLinked(t.mappings, chatDbId);
    if mi.None? {
      return Jobs([]);
    }
    var channel := t.mappings[mi.value].channelChatId;
    if !HasCommentRules(t.rules, channel) {
      return Jobs([]);
    }
    var parentTelegramId: Option<int> := None;
    var pi := ChatIndexById(t.chats, channel);
    if pi.Some? {
      parentTelegramId := ParseInt(t.chats[pi.value].telegramChatId);
      if parentTelegramId.None? {
        return Failed;
      }
    }
    var comment := CollectComment(t.rules, channel, parentTelegramId);
    return Jobs(comment);
  }

  /**
   * Rule resolution in the handler's session, which starts with no
   * uncommitted writes: the direct jobs, the warm-up, then the comment jobs.
   */
  method ResolveInSession(session: Session, chat: Chat, now: int, remote: RemoteOutcome, flushOk: bool, commitOk: bool)
    returns (res: Resolution)
    requires session.pending == session.durable
    modifies session
    ensures (res, Db(session.pending, session.durable)) ==
      Resolve(old(session.pending), chat, now, remote, flushOk, commitOk)
  {
    var direct, anyCommentForward := CollectDirect(session.pending.rules, chat.id);
    if anyCommentForward {
      var manager := new CommentManager(session);
      var outcome, queried := manager.GetLinkedChatId(chat.id, now, remote, flushOk, commitOk);
    }
    var comment := CollectCommentPart(session.pending, chat.id);
    if comment.Failed? {
      return Failed;
    }
    return Jobs(direct + comment.jobs);
  }

  /** The handler from the chat lookup on, in a session of its own that it closes on every path. */
  method HandleChatInSession(db: Tables, chatId: int, now: int, remote: RemoteOutcome, flushOk: bool, commitOk: bool)
    returns (result: Handled, committed: Tables)
    ensures (result, committed) == HandleChat(db, chatId, now, remote, flushOk, commitOk)
  {
    var session := new Session(db);
    var ci := ChatIndexByTelegramId(session.pending.chats, IntToString(chatId));
    if ci.None? {
      session.Close();
      return UnknownChat, session.durable;
    }
    var res := ResolveInSession(session, session.pending.chats[ci.value], now, remote, flushOk, commitOk);
    if res.Failed? {
      session.Close();
      return Raised, session.durable;
    }
    if |res.jobs| == 0 {
      session.Close();
      return NoJobs, session.durable;
    }
    var ds := PlanDispatches(res.jobs, IntToString(chatId));
    session.Close();
    return Dispatched(ds), session.durable;
  }

  // ------------------------------------------------------------ the listener

  /** The listener's state: `PROCESSED_GROUPS`, each key with the time its timer fires. */
  class MessageListener {
    var processedGroups: map<string, int>

    constructor ()
      ensures processedGroups == map[]
    {
      processedGroups := map[];
    }

    /** `clear_group_cache`: the timer for `key` fires at `now`. */
    method ClearGroupCache(key: string, now: int)
      modifies this
      ensures processedGroups == FireTimer(old(processedGroups), key, now)
    {
      if key in processedGroups && processedGroups[key] <= now {
        processedGroups := processedGroups - {key};
      }
    }

    /** `handle_user_message` on the committed tables `db`, in a session of its own. */
    method HandleUserMessage(ev: Event, stateActive: bool, promptHandled: bool, now: int,
                             db: Tables, remote: RemoteOutcome, flushOk: bool, commitOk: bool)
      returns (result: Handled, committed: Tables)
      modifies this
      ensures (result, processedGroups, committed) ==
        Handle(old(processedGroups), ev, stateActive, promptHandled, now, db, remote, flushOk, commitOk)
    {
      var chatId := ListenerChatId(ev.rawChatId, ev.isChannel, stateActive);
      if promptHandled {
        return PromptHandled, db;
      }
      if ev.groupedId.Some? && ev.groupedId.value != 0 {
        var key := GroupKey(chatId, ev.groupedId.value);
        if key in processedGroups && now < processedGroups[key] {
          return RepeatedGroupPart, db;
        }
        processedGroups := processedGroups[key := now + GroupCacheDelay];
      }
      assert Admit(old(processedGroups), chatId, ev.groupedId, now) == (true, processedGroups);
      result, committed := HandleChatInSession(db, chatId, now, remote, flushOk, commitOk);
    }
  }
}
