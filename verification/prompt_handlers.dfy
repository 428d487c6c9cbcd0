/**
 * The settings dispatcher (`handle_prompt_setting`): while the bot awaits a
 * setting, the state string names the rule field the user's next message is
 * written to (and the rule's id); the value is copied to the rules the rule
 * syncs with. The push-channel state adds a push configuration instead
 * (`handle_add_push_channel`).
 *
 * The success of each commit is a parameter; the replies, message deletions
 * and settings pages sent afterwards are not modelled.
 */
module PromptHandlers {
  import opened Wrappers
  import opened Text
  import opened Models
  import opened MessageListener
  import opened InfoFilter

  // ------------------------------------------------------------ fields

  /** The rule fields a prompt state can set. */
  datatype PromptField = SummaryPrompt | AiPrompt | UserinfoTemplate | TimeTemplate | OriginalLinkTemplate | CommentMessagePrefix

  /** The state prefix, before its `:`, that selects each field. */
  function StateTag(f: PromptField): string {
    match f
    case SummaryPrompt => "set_summary_prompt"
    case AiPrompt => "set_ai_prompt"
    case UserinfoTemplate => "set_userinfo_template"
    case TimeTemplate => "set_time_template"
    case OriginalLinkTemplate => "set_original_link_template"
    case CommentMessagePrefix => "waiting_comment_prefix"
  }

  const PushChannelTag: string := "add_push_channel"

  function GetField(r: ForwardRule, f: PromptField): Option<string> {
    match f
    case SummaryPrompt => r.summaryPrompt
    case AiPrompt => r.aiPrompt
    case UserinfoTemplate => r.userinfoTemplate
    case TimeTemplate => r.timeTemplate
    case OriginalLinkTemplate => r.originalLinkTemplate
    case CommentMessagePrefix => r.commentMessagePrefix
  }

  /** `setattr(rule, field_name, value)`. */
  function SetField(r: ForwardRule, f: PromptField, v: Option<string>): (r': ForwardRule)
    ensures GetField(r', f) == v
    ensures forall g :: g != f ==> GetField(r', g) == GetField(r, g)
    ensures r'.id == r.id && r'.enableSync == r.enableSync && r'.enableCommentForward == r.enableCommentForward
  {
    match f
    case SummaryPrompt => r.(summaryPrompt := v)
    case AiPrompt => r.(aiPrompt := v)
    case UserinfoTemplate => r.(userinfoTemplate := v)
    case TimeTemplate => r.(timeTemplate := v)
    case OriginalLinkTemplate => r.(originalLinkTemplate := v)
    case CommentMessagePrefix => r.(commentMessagePrefix := v)
  }

  /** Setting a field touches nothing else: putting the old value back gives the rule back. */
  lemma SetFieldRestores(r: ForwardRule, f: PromptField, v: Option<string>)
    ensures SetField(SetField(r, f, v), f, GetField(r, f)) == r
  {
  }

  // ------------------------------------------------------------ the state string

  datatype PromptState = SetsField(field: PromptField, ruleIdText: string) | AddsPushChannel(ruleIdText: string) | UnknownState

  /** `state.split(":")[1]` for a state that starts with `tag` and a colon. */
  function RuleIdAfter(state: string, tag: string): (id: string)
    requires ':' !in tag && StartsWith(state, tag + ":")
    ensures ':' !in id
    ensures id == Split(state[|tag| + 1..], ':')[0]
  {
    var rest := state[|tag| + 1..];
    assert state == tag + [':'] + rest by {
      assert state[..|tag| + 1] == tag + ":";
      assert state == state[..|tag| + 1] + rest;
    }
    SplitAfterTag(tag, ':', rest);
    Split(state, ':')[1]
  }

  /** The field tags in the order the if/elif chain tests them. */
  const FieldOrder: seq<PromptField> := [SummaryPrompt, AiPrompt, UserinfoTemplate, TimeTemplate, OriginalLinkTemplate, CommentMessagePrefix]

  predicate Tagged(state: string, tag: string) {
    StartsWith(state, tag + ":")
  }

  lemma TagHasNoColon(f: PromptField)
    ensures ':' !in StateTag(f)
  {
  }

  /**
   * The if/elif chain over the state's prefix: the first field tag that
   * starts the state, then the push-channel tag.
   */
  function ParsePromptState(state: string): (r: PromptState)
    ensures r.SetsField? ==> Tagged(state, StateTag(r.field)) && ':' !in r.ruleIdText
    ensures r.AddsPushChannel? ==> Tagged(state, PushChannelTag) && ':' !in r.ruleIdText
    ensures r.UnknownState? <==> !Tagged(state, PushChannelTag) && forall g :: g in FieldOrder ==> !Tagged(state, StateTag(g))
  {
    match FirstTagged(state, FieldOrder)
    case Some(f) =>
      TagHasNoColon(f);
      SetsField(f, RuleIdAfter(state, StateTag(f)))
    case None =>
      if Tagged(state, PushChannelTag) then AddsPushChannel(RuleIdAfter(state, PushChannelTag))
      else UnknownState
  }

  /** The first of `fields` whose tag starts the state. */
  function FirstTagged(state: string, fields: seq<PromptField>): (r: Option<PromptField>)
    ensures r.Some? ==> r.value in fields && Tagged(state, StateTag(r.value))
    ensures r.None? ==> forall g :: g in fields ==> !Tagged(state, StateTag(g))
  {
    if |fields| == 0 then None
    else if Tagged(state, StateTag(fields[0])) then Some(fields[0])
    else FirstTagged(state, fields[1..])
  }

  /** When only `f` among the fields has its tag start the state, `f` is found. */
  lemma {:induction false} FirstTaggedOnly(state: string, fields: seq<PromptField>, f: PromptField)
    requires f in fields && Tagged(state, StateTag(f))
    requires forall g :: g in fields && g != f ==> !Tagged(state, StateTag(g))
    ensures FirstTagged(state, fields) == Some(f)
  {
    if fields[0] != f {
      assert f in fields[1..];
      FirstTaggedOnly(state, fields[1..], f);
    }
  }

  /** Two prefixes that differ at a position both cover cannot both start the same text. */
  lemma PrefixesExclusive(s: string, p: string, q: string, k: nat)
    requires StartsWith(s, p) && k < |p| && k < |q| && p[k] != q[k]
    ensures !StartsWith(s, q)
  {
    assert s[k] == s[..|p|][k] == p[k];
    if |q| <= |s| {
      assert s[..|q|][k] != q[k];
    }
  }

  /** A position where the tags of two different fields differ: after `set_`, or the first letter. */
  function TagDiffPos(f: PromptField, g: PromptField): nat {
    if f == CommentMessagePrefix || g == CommentMessagePrefix then 0 else 4
  }

  lemma TagsDiffer(f: PromptField, g: PromptField)
    requires f != g
    ensures var k := TagDiffPos(f, g);
      k < |StateTag(f)| && k < |StateTag(g)| && StateTag(f)[k] != StateTag(g)[k]
  {
  }

  /** A state that starts with `tag` and a colon. */
  lemma TaggedState(tag: string, rest: string)
    ensures Tagged(tag + ":" + rest, tag)
    ensures (tag + ":" + rest)[|tag| + 1..] == rest
  {
    var s := tag + ":" + rest;
    assert s[..|tag| + 1] == tag + ":";
  }

  /**
   * Each field's tag selects that field, whatever follows; the rule id is
   * what follows the colon, up to the next colon.
   */
  lemma ParseFieldState(f: PromptField, rest: string)
    ensures ParsePromptState(StateTag(f) + ":" + rest) == SetsField(f, Split(rest, ':')[0])
  {
    var tag := StateTag(f);
    var s := tag + ":" + rest;
    TaggedState(tag, rest);
    forall g | g != f
      ensures !Tagged(s, StateTag(g))
    {
      TagsDiffer(f, g);
      PrefixesExclusive(s, tag + ":", StateTag(g) + ":", TagDiffPos(f, g));
    }
    assert f in FieldOrder;
    FirstTaggedOnly(s, FieldOrder, f);
  }

  /** The push-channel tag selects the push-channel handler. */
  lemma ParsePushChannelState(rest: string)
    ensures ParsePromptState(PushChannelTag + ":" + rest) == AddsPushChannel(Split(rest, ':')[0])
  {
    var tag := PushChannelTag;
    var s := tag + ":" + rest;
    TaggedState(tag, rest);
    forall g
      ensures !Tagged(s, StateTag(g))
    {
      PushTagExcludes(s, g);
    }
    assert FirstTagged(s, FieldOrder).None?;
  }

  lemma PushTagExcludes(s: string, g: PromptField)
    requires Tagged(s, PushChannelTag)
    ensures !Tagged(s, StateTag(g))
  {
    PrefixesExclusive(s, PushChannelTag + ":", StateTag(g) + ":", 0);
  }

  // ------------------------------------------------------------ sync propagation

  /** The `sync_rule_id`s of the rule's sync rows, in row order. */
  function SyncTargets(syncs: seq<RuleSync>, ruleId: int): (targets: seq<int>)
    ensures forall x :: x in targets <==> exists k :: 0 <= k < |syncs| && syncs[k].ruleId == ruleId && syncs[k].syncRuleId == x
    decreases |syncs|
  {
    if |syncs| == 0 then []
    else
      var init, last := syncs[..|syncs| - 1], syncs[|syncs| - 1];
      assert forall k :: 0 <= k < |init| ==> init[k] == syncs[k];
      SyncTargets(init, ruleId) + (if last.ruleId == ruleId then [last.syncRuleId] else [])
  }

  /** The sync loop: each target that exists gets the value; a missing target is skipped. */
  function Propagate(rules: seq<ForwardRule>, targets: seq<int>, f: PromptField, v: Option<string>): (r: seq<ForwardRule>)
    ensures |r| == |rules|
    ensures forall k :: 0 <= k < |rules| ==> r[k].id == rules[k].id
    decreases |targets|
  {
    if |targets| == 0 then rules
    else
      var before := Propagate(rules, targets[..|targets| - 1], f, v);
      match RuleIndexById(before, targets[|targets| - 1])
      case None => before
      case Some(j) => before[j := SetField(before[j], f, v)]
  }

  /** Propagating to one more target is one more turn of the loop. */
  lemma PropagateAppend(rules: seq<ForwardRule>, targets: seq<int>, x: int, f: PromptField, v: Option<string>)
    ensures var before := Propagate(rules, targets, f, v);
      Propagate(rules, targets + [x], f, v) ==
        match RuleIndexById(before, x)
        case None => before
        case Some(j) => before[j := SetField(before[j], f, v)]
  {
    assert (targets + [x])[..|targets|] == targets;
  }

  /** Setting a field twice keeps the second value. */
  lemma SetFieldTwice(r: ForwardRule, f: PromptField, v: Option<string>, w: Option<string>)
    ensures SetField(SetField(r, f, v), f, w) == SetField(r, f, w)
  {
  }

  /** One step of the sync loop, seen from rule `k`. */
  lemma PropagateStep(before: seq<ForwardRule>, rules: seq<ForwardRule>, x: int, f: PromptField, v: Option<string>, k: nat)
    requires RuleIdsUnique(rules) && |before| == |rules| && k < |rules|
    requires forall m :: 0 <= m < |rules| ==> before[m].id == rules[m].id
    ensures var r := match RuleIndexById(before, x)
        case None => before
        case Some(j) => before[j := SetField(before[j], f, v)];
      r[k] == if rules[k].id == x then SetField(before[k], f, v) else before[k]
  {
    match RuleIndexById(before, x)
    case None =>
      assert before[k].id != x;
    case Some(j) =>
      assert before[j].id == x && before[k].id == rules[k].id && before[j].id == rules[j].id;
  }

  /**
   * After propagation a rule whose id is among the targets holds the value in
   * that field and is otherwise unchanged; every other rule is unchanged.
   */
  lemma {:induction false} PropagateEffect(rules: seq<ForwardRule>, targets: seq<int>, f: PromptField, v: Option<string>, k: nat)
    requires RuleIdsUnique(rules) && k < |rules|
    ensures var r := Propagate(rules, targets, f, v);
      r[k] == if rules[k].id in targets then SetField(rules[k], f, v) else rules[k]
    decreases |targets|
  {
    if |targets| > 0 {
      var init, x := targets[..|targets| - 1], targets[|targets| - 1];
      assert targets == init + [x];
      PropagateEffect(rules, init, f, v, k);
      var before := Propagate(rules, init, f, v);
      PropagateStep(before, rules, x, f, v, k);
      if rules[k].id in init && rules[k].id == x {
        SetFieldTwice(rules[k], f, v, v);
      }
    }
  }

  // ------------------------------------------------------------ push channels

  /** E-mail push channels send media several at a time; anything else one at a time. */
  function MediaSendMode(channel: string): (mode: string)
    ensures mode == "Multiple" <==>
      StartsWith(channel, "mailto://") || StartsWith(channel, "mailtos://") || StartsWith(channel, "email://")
    ensures mode == "Multiple" || mode == "Single"
  {
    if StartsWith(channel, "mailto://") || StartsWith(channel, "mailtos://") || StartsWith(channel, "email://")
    then "Multiple" else "Single"
  }

  predicate HasPushConfig(cs: seq<PushConfig>, ruleId: int, channel: string) {
    exists k :: 0 <= k < |cs| && cs[k].ruleId == ruleId && cs[k].pushChannel == channel
  }

  predicate IsRuleId(rules: seq<ForwardRule>, id: int) {
    exists k :: 0 <= k < |rules| && rules[k].id == id
  }

  /**
   * The push sync loop: each target that exists and does not already have
   * this channel (counting the configurations added so far) gets one, and
   * push is enabled on it.
   */
  function SyncPush(t: Tables, targets: seq<int>, channel: string, mode: string): (t': Tables)
    ensures t'.chats == t.chats && t'.syncs == t.syncs && t'.mappings == t.mappings
    ensures |t'.rules| == |t.rules| && forall k :: 0 <= k < |t.rules| ==> t'.rules[k].id == t.rules[k].id
    ensures |t.pushConfigs| <= |t'.pushConfigs| && t'.pushConfigs[..|t.pushConfigs|] == t.pushConfigs
    decreases |targets|
  {
    if |targets| == 0 then t
    else PushStep(SyncPush(t, targets[..|targets| - 1], channel, mode), targets[|targets| - 1], channel, mode)
  }

  /** One turn of the push sync loop, for the target `x`. */
  function PushStep(s: Tables, x: int, channel: string, mode: string): (s': Tables)
    ensures s'.chats == s.chats && s'.syncs == s.syncs && s'.mappings == s.mappings
    ensures |s'.rules| == |s.rules| && forall k :: 0 <= k < |s.rules| ==> s'.rules[k].id == s.rules[k].id
    ensures |s.pushConfigs| <= |s'.pushConfigs| && s'.pushConfigs[..|s.pushConfigs|] == s.pushConfigs
  {
    match RuleIndexById(s.rules, x)
    case None => s
    case Some(j) =>
      if HasPushConfig(s.pushConfigs, x, channel) then s
      else s.(pushConfigs := s.pushConfigs + [PushConfig(x, channel, true, mode)],
              rules := s.rules[j := s.rules[j].(enablePush := true)])
  }

  /** One turn of the push sync loop, seen from rule `k`. */
  lemma PushStepRule(s: Tables, x: int, channel: string, mode: string, k: nat)
    requires RuleIdsUnique(s.rules) && k < |s.rules|
    ensures PushStep(s, x, channel, mode).rules[k] ==
      if s.rules[k].id == x && !HasPushConfig(s.pushConfigs, x, channel) then s.rules[k].(enablePush := true) else s.rules[k]
  {
    match RuleIndexById(s.rules, x)
    case None =>
    case Some(j) =>
      assert s.rules[j].id == x;
  }

  /** A configuration of `ruleId` for `channel` is among `cs[lo..]`. */
  predicate AddedFor(cs: seq<PushConfig>, lo: nat, ruleId: int, channel: string) {
    exists k :: lo <= k < |cs| && cs[k].ruleId == ruleId && cs[k].pushChannel == channel
  }

  lemma HasPushConfigSplit(cs: seq<PushConfig>, lo: nat, ruleId: int, channel: string)
    requires lo <= |cs|
    ensures HasPushConfig(cs, ruleId, channel) <==> HasPushConfig(cs[..lo], ruleId, channel) || AddedFor(cs, lo, ruleId, channel)
  {
    if HasPushConfig(cs[..lo], ruleId, channel) {
      var k :| 0 <= k < lo && cs[..lo][k].ruleId == ruleId && cs[..lo][k].pushChannel == channel;
      assert cs[k] == cs[..lo][k];
    }
    if HasPushConfig(cs, ruleId, channel) && !AddedFor(cs, lo, ruleId, channel) {
      var k :| 0 <= k < |cs| && cs[k].ruleId == ruleId && cs[k].pushChannel == channel;
      assert cs[..lo][k] == cs[k];
    }
  }

  /**
   * The configurations in `cs` from `lo` on are for the targets, enabled,
   * with the given send mode, and never a second one for their rule and
   * channel.
   */
  predicate AddedConfigs(cs: seq<PushConfig>, lo: nat, targets: seq<int>, channel: string, mode: string) {
    forall k :: lo <= k < |cs| ==>
      && cs[k] == PushConfig(cs[k].ruleId, channel, true, mode)
      && cs[k].ruleId in targets
      && !HasPushConfig(cs[..k], cs[k].ruleId, channel)
  }

  /** The configurations the push sync loop adds are what `AddedConfigs` describes. */
  lemma {:induction false} SyncPushAdds(t: Tables, targets: seq<int>, channel: string, mode: string)
    ensures AddedConfigs(SyncPush(t, targets, channel, mode).pushConfigs, |t.pushConfigs|, targets, channel, mode)
    decreases |targets|
  {
    if |targets| > 0 {
      var init, x := targets[..|targets| - 1], targets[|targets| - 1];
      SyncPushAdds(t, init, channel, mode);
      var s := SyncPush(t, init, channel, mode);
      var cs := SyncPush(t, targets, channel, mode).pushConfigs;
      assert AddedConfigs(s.pushConfigs, |t.pushConfigs|, init, channel, mode);
      assert forall y :: y in init ==> y in targets;
      if RuleIndexById(s.rules, x).Some? && !HasPushConfig(s.pushConfigs, x, channel) {
        assert cs == s.pushConfigs + [PushConfig(x, channel, true, mode)];
        forall k | |t.pushConfigs| <= k < |cs|
          ensures cs[k] == PushConfig(cs[k].ruleId, channel, true, mode)
          ensures cs[k].ruleId in targets
          ensures !HasPushConfig(cs[..k], cs[k].ruleId, channel)
        {
          if k < |s.pushConfigs| {
            assert cs[..k] == s.pushConfigs[..k] && cs[k] == s.pushConfigs[k];
          } else {
            assert cs[..k] == s.pushConfigs;
            assert cs[k].ruleId == x == targets[|targets| - 1];
          }
        }
      } else {
        assert cs == s.pushConfigs;
      }
    }
  }

  /** Every target that exists ends up with a configuration for the channel. */
  lemma {:induction false} SyncPushCovers(t: Tables, targets: seq<int>, channel: string, mode: string)
    ensures var cs := SyncPush(t, targets, channel, mode).pushConfigs;
      forall x :: x in targets && IsRuleId(t.rules, x) ==> HasPushConfig(cs, x, channel)
    decreases |targets|
  {
    if |targets| > 0 {
      var init, x := targets[..|targets| - 1], targets[|targets| - 1];
      SyncPushCovers(t, init, channel, mode);
      var s := SyncPush(t, init, channel, mode);
      var cs := SyncPush(t, targets, channel, mode).pushConfigs;
      assert targets == init + [x];
      assert cs[..|s.pushConfigs|] == s.pushConfigs;
      forall y | y in targets && IsRuleId(t.rules, y)
        ensures HasPushConfig(cs, y, channel)
      {
        HasPushConfigSplit(cs, |s.pushConfigs|, y, channel);
        if y == x {
          var w :| 0 <= w < |t.rules| && t.rules[w].id == y;
          assert s.rules[w].id == y;
          if cs != s.pushConfigs {
            assert cs[|s.pushConfigs|] == PushConfig(x, channel, true, mode);
          }
        }
      }
    }
  }

  /**
   * Push is switched on for exactly the existing targets that did not
   * already have the channel; nothing else in the rules changes.
   */
  lemma {:induction false} SyncPushRules(t: Tables, targets: seq<int>, channel: string, mode: string, k: nat)
    requires RuleIdsUnique(t.rules) && k < |t.rules|
    ensures SyncPush(t, targets, channel, mode).rules[k] ==
      if t.rules[k].id in targets && !HasPushConfig(t.pushConfigs, t.rules[k].id, channel)
      then t.rules[k].(enablePush := true) else t.rules[k]
    decreases |targets|
  {
    if |targets| > 0 {
      var init, x := targets[..|targets| - 1], targets[|targets| - 1];
      SyncPushRules(t, init, channel, mode, k);
      var s := SyncPush(t, init, channel, mode);
      var id := t.rules[k].id;
      assert targets == init + [x];
      assert id in targets <==> id in init || id == x;
      assert RuleIdsUnique(s.rules);
      PushStepRule(s, x, channel, mode, k);
      if id == x {
        SyncPushHas(t, init, channel, mode, k);
      }
    }
  }

  /**
   * Rule `k` has the channel after the loop over `targets` exactly when it
   * had it before or is one of the targets.
   */
  lemma SyncPushHas(t: Tables, targets: seq<int>, channel: string, mode: string, k: nat)
    requires k < |t.rules|
    ensures var id := t.rules[k].id;
      HasPushConfig(SyncPush(t, targets, channel, mode).pushConfigs, id, channel) <==>
        HasPushConfig(t.pushConfigs, id, channel) || id in targets
  {
    var s := SyncPush(t, targets, channel, mode);
    var id := t.rules[k].id;
    HasPushConfigSplit(s.pushConfigs, |t.pushConfigs|, id, channel);
    SyncPushAdds(t, targets, channel, mode);
    SyncPushCovers(t, targets, channel, mode);
    if id in targets {
      assert IsRuleId(t.rules, id);
    }
    if AddedFor(s.pushConfigs, |t.pushConfigs|, id, channel) {
      var m :| |t.pushConfigs| <= m < |s.pushConfigs| && s.pushConfigs[m].ruleId == id && s.pushConfigs[m].pushChannel == channel;
      assert s.pushConfigs[m].ruleId in targets;
    }
  }

  // ------------------------------------------------------------ the handlers

  /** How the handler ends: `False`, `True`, or an exception raised to the caller. */
  datatype Reply = Declined | Accepted | ErrorRaised

  /** The value stored: the message text, except that a blank comment prefix clears the field. */
  function NewValue(f: PromptField, text: string): (v: Option<string>)
    ensures v.None? <==> f == CommentMessagePrefix && forall k :: 0 <= k < |text| ==> IsSpace(text[k])
    ensures v.Some? ==> v.value == text
  {
    StripEmptyIff(text);
    if f == CommentMessagePrefix && Strip(text) == "" then None else Some(text)
  }

  /** SQLite keeps integers in 64 bits: a key outside this range cannot be bound to a query. */
  const Int64Bound: int := 0x8000_0000_0000_0000

  predicate FitsInt64(n: int) {
    -Int64Bound <= n < Int64Bound
  }

  /**
   * `int(rule_id)` used as the key of `query(ForwardRule).get`: `None` when
   * `int()` raises, and when the lookup raises `OverflowError` because the
   * value does not fit in 64 bits.
   */
  function RuleIdKey(ruleIdText: string): Option<int> {
    match ParseInt(ruleIdText)
    case Some(id) => if FitsInt64(id) then Some(id) else None
    case None => None
  }

  /**
   * Setting a field: `int()` of the rule id or the lookup raising propagates; an unknown
   * rule ends the handler with `True` and no write; otherwise the field is
   * written as `WriteField` says. The committed tables afterwards.
   */
  function SetPrompt(t: Tables, f: PromptField, ruleIdText: string, text: string, commitOk: bool, syncCommitOk: bool): (r: (Reply, Tables))
    ensures |r.1.rules| == |t.rules| && forall k :: 0 <= k < |t.rules| ==> r.1.rules[k].id == t.rules[k].id
    ensures r.1.chats == t.chats && r.1.syncs == t.syncs && r.1.mappings == t.mappings && r.1.pushConfigs == t.pushConfigs
    ensures r.0 != Declined
  {
    match RuleIdKey(ruleIdText)
    case None => (ErrorRaised, t)
    case Some(id) =>
      match RuleIndexById(t.rules, id)
      case None => (Accepted, t)
      case Some(i) => WriteField(t, i, f, NewValue(f, text), commitOk, syncCommitOk)
  }

  /**
   * Rule `i` found: the field is set and committed, then, with sync on,
   * copied to the rule's sync targets and committed again. A refused first
   * commit leaves nothing; a refused second one leaves the first.
   */
  function WriteField(t: Tables, i: nat, f: PromptField, v: Option<string>, commitOk: bool, syncCommitOk: bool): (r: (Reply, Tables))
    requires i < |t.rules|
    ensures |r.1.rules| == |t.rules| && forall k :: 0 <= k < |t.rules| ==> r.1.rules[k].id == t.rules[k].id
    ensures r.1.chats == t.chats && r.1.syncs == t.syncs && r.1.mappings == t.mappings && r.1.pushConfigs == t.pushConfigs
  {
    var t1 := t.(rules := t.rules[i := SetField(t.rules[i], f, v)]);
    if !commitOk then (ErrorRaised, t)
    else if !t.rules[i].enableSync then (Accepted, t1)
    else
      var t2 := t1.(rules := Propagate(t1.rules, SyncTargets(t1.syncs, t.rules[i].id), f, v));
      if syncCommitOk then (Accepted, t2) else (ErrorRaised, t1)
  }

  /**
   * Adding a push channel: an unreadable or unknown rule id gives `False`;
   * otherwise the stripped text becomes a push configuration of the rule
   * (and, with sync on, of its targets), push is enabled, and everything is
   * committed together or, when the commit fails, nothing is.
   */
  function AddPushChannel(t: Tables, ruleIdText: string, text: string, commitOk: bool): (r: (Reply, Tables))
    ensures |r.1.rules| == |t.rules| && forall k :: 0 <= k < |t.rules| ==> r.1.rules[k].id == t.rules[k].id
    ensures r.1.chats == t.chats && r.1.syncs == t.syncs && r.1.mappings == t.mappings
    ensures |t.pushConfigs| <= |r.1.pushConfigs| && r.1.pushConfigs[..|t.pushConfigs|] == t.pushConfigs
    ensures r.0 == Declined ==> r.1 == t
  {
    match RuleIdKey(ruleIdText)
    case None => (Declined, t)
    case Some(id) =>
      match RuleIndexById(t.rules, id)
      case None => (Declined, t)
      case Some(i) => (Accepted, if commitOk then AddChannel(t, i, Strip(text)) else t)
  }

  /**
   * Rule `i` found: a configuration of the rule for the channel, enabled,
   * with the channel's send mode, push switched on, and, with sync on, the
   * same for the rule's sync targets.
   */
  function AddChannel(t: Tables, i: nat, channel: string): (t': Tables)
    requires i < |t.rules|
    ensures |t'.rules| == |t.rules| && forall k :: 0 <= k < |t.rules| ==> t'.rules[k].id == t.rules[k].id
    ensures t'.chats == t.chats && t'.syncs == t.syncs && t'.mappings == t.mappings
    ensures |t.pushConfigs| <= |t'.pushConfigs| && t'.pushConfigs[..|t.pushConfigs|] == t.pushConfigs
  {
    var id := t.rules[i].id;
    var mode := MediaSendMode(channel);
    var t1 := t.(pushConfigs := t.pushConfigs + [PushConfig(id, channel, true, mode)],
                 rules := t.rules[i := t.rules[i].(enablePush := true)]);
    assert t1.pushConfigs[..|t.pushConfigs|] == t.pushConfigs;
    var t2 := if t.rules[i].enableSync then SyncPush(t1, SyncTargets(t.syncs, id), channel, mode) else t1;
    PrefixOfPrefix(t.pushConfigs, t1.pushConfigs, t2.pushConfigs);
    t2
  }

  lemma PrefixOfPrefix<T>(a: seq<T>, b: seq<T>, c: seq<T>)
    requires |a| <= |b| <= |c| && b[..|a|] == a && c[..|b|] == b
    ensures c[..|a|] == a
  {
    assert c[..|a|] == c[..|b|][..|a|];
  }

  /** `handle_prompt_setting`: the reply and the committed tables afterwards. */
  function HandlePrompt(t: Tables, state: string, text: string, commitOk: bool, syncCommitOk: bool): (r: (Reply, Tables))
    ensures state == "" ==> r == (Declined, t)
    ensures r.0 == Declined ==> r.1 == t
    ensures |r.1.rules| == |t.rules| && forall k :: 0 <= k < |t.rules| ==> r.1.rules[k].id == t.rules[k].id
    ensures r.1.chats == t.chats && r.1.syncs == t.syncs && r.1.mappings == t.mappings
    ensures |t.pushConfigs| <= |r.1.pushConfigs| && r.1.pushConfigs[..|t.pushConfigs|] == t.pushConfigs
  {
    if state == "" then (Declined, t)
    else match ParsePromptState(state)
      case UnknownState => (Declined, t)
      case AddsPushChannel(r) => AddPushChannel(t, r, text, commitOk)
      case SetsField(f, r) => SetPrompt(t, f, r, text, commitOk, syncCommitOk)
  }

  // ------------------------------------------------------------ properties

  /** An empty or unrecognised state is declined and writes nothing. */
  lemma UnknownStateDeclined(t: Tables, state: string, text: string, commitOk: bool, syncCommitOk: bool)
    requires state == "" || ParsePromptState(state) == UnknownState
    ensures HandlePrompt(t, state, text, commitOk, syncCommitOk) == (Declined, t)
  {
  }

  /**
   * With both commits going through, rule `i` holds the value in the
   * selected field and nothing else of it changes; with sync on, so does
   * every existing target; every other rule is unchanged.
   */
  lemma WriteFieldEffect(t: Tables, i: nat, f: PromptField, v: Option<string>, k: nat)
    requires RuleIdsUnique(t.rules) && i < |t.rules| && k < |t.rules|
    ensures var (reply, after) := WriteField(t, i, f, v, true, true);
      var synced := t.rules[i].enableSync && t.rules[k].id in SyncTargets(t.syncs, t.rules[i].id);
      && reply == Accepted
      && after.rules[k] == if k == i || synced then SetField(t.rules[k], f, v) else t.rules[k]
  {
    var rules1 := t.rules[i := SetField(t.rules[i], f, v)];
    if t.rules[i].enableSync {
      assert forall m :: 0 <= m < |t.rules| ==> rules1[m].id == t.rules[m].id;
      assert RuleIdsUnique(rules1);
      PropagateEffect(rules1, SyncTargets(t.syncs, t.rules[i].id), f, v, k);
      if k == i {
        SetFieldTwice(t.rules[k], f, v, v);
      }
    }
  }

  /**
   * With both commits going through, the rule holds the new value in the
   * selected field and nothing else of it changes; with sync on, so does
   * every existing target; every other rule is unchanged.
   */
  lemma SetPromptWrites(t: Tables, f: PromptField, ruleId: int, text: string, k: nat)
    requires RuleIdsUnique(t.rules) && k < |t.rules|
    requires IsRuleId(t.rules, ruleId) && FitsInt64(ruleId)
    ensures var (reply, after) := SetPrompt(t, f, IntToString(ruleId), text, true, true);
      var i := RuleIndexById(t.rules, ruleId).value;
      var synced := t.rules[i].enableSync && t.rules[k].id in SyncTargets(t.syncs, ruleId);
      && reply == Accepted
      && after.rules[k] == if t.rules[k].id == ruleId || synced then SetField(t.rules[k], f, NewValue(f, text)) else t.rules[k]
  {
    IntToStringRoundTrip(ruleId);
    var i := RuleIndexById(t.rules, ruleId).value;
    assert t.rules[k].id == ruleId <==> k == i;
    WriteFieldEffect(t, i, f, NewValue(f, text), k);
  }

  /** A refused first commit raises and writes nothing. */
  lemma SetPromptCommitFailure(t: Tables, f: PromptField, ruleIdText: string, text: string, syncCommitOk: bool)
    requires RuleIdKey(ruleIdText).Some? && RuleIndexById(t.rules, RuleIdKey(ruleIdText).value).Some?
    ensures SetPrompt(t, f, ruleIdText, text, false, syncCommitOk) == (ErrorRaised, t)
  {
  }

  /**
   * The paths that write nothing: a rule id that `int()` cannot read raises,
   * and an id no rule has ends the handler with `True`, whatever the commits
   * would do.
   */
  lemma SetPromptRejects(t: Tables, f: PromptField, ruleIdText: string, text: string, commitOk: bool, syncCommitOk: bool)
    ensures RuleIdKey(ruleIdText).None? ==> SetPrompt(t, f, ruleIdText, text, commitOk, syncCommitOk) == (ErrorRaised, t)
    ensures RuleIdKey(ruleIdText).Some? && RuleIndexById(t.rules, RuleIdKey(ruleIdText).value).None? ==>
      SetPrompt(t, f, ruleIdText, text, commitOk, syncCommitOk) == (Accepted, t)
  {
  }

  /**
   * A refused sync commit raises after the first commit: the rule keeps the
   * new value, its sync targets do not get it.
   */
  lemma SetPromptSyncCommitFailure(t: Tables, f: PromptField, ruleId: int, text: string, i: nat)
    requires i < |t.rules| && RuleIndexById(t.rules, ruleId) == Some(i) && FitsInt64(ruleId)
    requires t.rules[i].enableSync
    ensures SetPrompt(t, f, IntToString(ruleId), text, true, false) ==
      (ErrorRaised, t.(rules := t.rules[i := SetField(t.rules[i], f, NewValue(f, text))]))
  {
    IntToStringRoundTrip(ruleId);
  }

  /**
   * A rule id too wide for SQLite's 64-bit integers makes the lookup raise,
   * even when a rule has that id: setting a field raises and adding a push
   * channel answers `False`, and neither writes.
   */
  lemma OversizedRuleIdRaises(t: Tables, f: PromptField, ruleId: int, text: string, commitOk: bool, syncCommitOk: bool)
    requires !FitsInt64(ruleId)
    ensures SetPrompt(t, f, IntToString(ruleId), text, commitOk, syncCommitOk) == (ErrorRaised, t)
    ensures AddPushChannel(t, IntToString(ruleId), text, commitOk) == (Declined, t)
  {
    IntToStringRoundTrip(ruleId);
  }

  /**
   * A blank comment prefix clears the field, so comments forwarded by the
   * rule carry the default prefix again.
   */
  lemma BlankPrefixRestoresDefault(t: Tables, ruleId: int, text: string, meta: Option<CommentMetadata>)
    requires RuleIdsUnique(t.rules) && IsRuleId(t.rules, ruleId) && FitsInt64(ruleId)
    requires forall k :: 0 <= k < |text| ==> IsSpace(text[k])
    requires MarkedComment(meta)
    ensures var after := SetPrompt(t, CommentMessagePrefix, IntToString(ruleId), text, true, true).1;
      var i := RuleIndexById(t.rules, ruleId).value;
      after.rules[i].enableCommentForward ==>
        CommentPrefix(after.rules[i], meta) == DefaultCommentPrefix + "\n\n"
  {
    var i := RuleIndexById(t.rules, ruleId).value;
    SetPromptWrites(t, CommentMessagePrefix, ruleId, text, i);
  }

  /**
   * The push sync loop keeps what was written before it and gives every
   * existing target the channel.
   */
  lemma SyncPushKeeps(t: Tables, targets: seq<int>, channel: string, mode: string, i: nat)
    requires RuleIdsUnique(t.rules) && i < |t.rules| && t.rules[i].enablePush
    ensures var after := SyncPush(t, targets, channel, mode);
      && after.rules[i].enablePush
      && forall x :: x in targets && IsRuleId(t.rules, x) ==> HasPushConfig(after.pushConfigs, x, channel)
  {
    SyncPushRules(t, targets, channel, mode, i);
    SyncPushCovers(t, targets, channel, mode);
  }

  /**
   * Rule `i` gets a configuration for the channel, enabled, with the send
   * mode its scheme calls for, and push on; with sync on, every existing
   * target has a configuration for the channel too.
   */
  lemma AddChannelWrites(t: Tables, i: nat, channel: string)
    requires RuleIdsUnique(t.rules) && i < |t.rules|
    ensures var after := AddChannel(t, i, channel);
      && PushConfig(t.rules[i].id, channel, true, MediaSendMode(channel)) in after.pushConfigs
      && after.rules[i].enablePush
      && (t.rules[i].enableSync ==>
            forall x :: x in SyncTargets(t.syncs, t.rules[i].id) && IsRuleId(t.rules, x) ==> HasPushConfig(after.pushConfigs, x, channel))
  {
    var mode := MediaSendMode(channel);
    var c := PushConfig(t.rules[i].id, channel, true, mode);
    var t1 := t.(pushConfigs := t.pushConfigs + [c], rules := t.rules[i := t.rules[i].(enablePush := true)]);
    var after := AddChannel(t, i, channel);
    assert t1.pushConfigs[|t.pushConfigs|] == c;
    if t.rules[i].enableSync {
      var targets := SyncTargets(t.syncs, t.rules[i].id);
      assert after == SyncPush(t1, targets, channel, mode);
      assert forall m :: 0 <= m < |t.rules| ==> t1.rules[m].id == t.rules[m].id;
      SyncPushKeeps(t1, targets, channel, mode, i);
      assert after.pushConfigs[..|t1.pushConfigs|] == t1.pushConfigs;
      assert after.pushConfigs[|t.pushConfigs|] == c;
      forall x | x in targets && IsRuleId(t.rules, x)
        ensures IsRuleId(t1.rules, x)
      {
        var w :| 0 <= w < |t.rules| && t.rules[w].id == x;
        assert t1.rules[w].id == x;
      }
    } else {
      assert after == t1;
    }
  }

  /**
   * A committed push channel: the rule gets a configuration for the stripped
   * text, enabled, with the send mode its scheme calls for, and push on; with
   * sync on, so does every existing target.
   */
  lemma AddPushChannelWrites(t: Tables, ruleId: int, text: string)
    requires RuleIdsUnique(t.rules) && IsRuleId(t.rules, ruleId) && FitsInt64(ruleId)
    ensures var (reply, after) := AddPushChannel(t, IntToString(ruleId), text, true);
      var i := RuleIndexById(t.rules, ruleId).value;
      var channel := Strip(text);
      && reply == Accepted
      && PushConfig(ruleId, channel, true, MediaSendMode(channel)) in after.pushConfigs
      && after.rules[i].enablePush
      && (t.rules[i].enableSync ==>
            forall x :: x in SyncTargets(t.syncs, ruleId) && IsRuleId(t.rules, x) ==> HasPushConfig(after.pushConfigs, x, channel))
  {
    IntToStringRoundTrip(ruleId);
    assert RuleIdKey(IntToString(ruleId)) == Some(ruleId);
    var i := RuleIndexById(t.rules, ruleId).value;
    assert AddPushChannel(t, IntToString(ruleId), text, true) == (Accepted, AddChannel(t, i, Strip(text)));
    AddChannelWrites(t, i, Strip(text));
  }

  /** A refused commit of a push channel rolls everything back; the reply is still `True`. */
  lemma AddPushChannelRollsBack(t: Tables, ruleIdText: string, text: string)
    ensures var (reply, after) := AddPushChannel(t, ruleIdText, text, false);
      after == t && (reply == Accepted <==> RuleIdKey(ruleIdText).Some? && RuleIndexById(t.rules, RuleIdKey(ruleIdText).value).Some?)
  {
  }

  /**
   * The reply does not depend on the commit: `True` exactly for a known rule;
   * an unreadable or unknown id gives `False` and writes nothing.
   */
  lemma AddPushChannelReply(t: Tables, ruleIdText: string, text: string, commitOk: bool)
    ensures var known := RuleIdKey(ruleIdText).Some? && RuleIndexById(t.rules, RuleIdKey(ruleIdText).value).Some?;
      && (AddPushChannel(t, ruleIdText, text, commitOk).0 == Accepted <==> known)
      && (!known ==> AddPushChannel(t, ruleIdText, text, commitOk) == (Declined, t))
  {
  }

  // ------------------------------------------------------------ the loops

  /** The field sync loop over the rule's sync rows. */
  method SyncField(rules: seq<ForwardRule>, syncs: seq<RuleSync>, ruleId: int, f: PromptField, v: Option<string>)
    returns (rules': seq<ForwardRule>)
    ensures rules' == Propagate(rules, SyncTargets(syncs, ruleId), f, v)
  {
    rules' := rules;
    var i := 0;
    while i < |syncs|
      invariant 0 <= i <= |syncs|
      invariant rules' == Propagate(rules, SyncTargets(syncs[..i], ruleId), f, v)
    {
      SyncFieldTurn(rules, syncs, i, ruleId, f, v);
      var sync := syncs[i];
      if sync.ruleId == ruleId {
        var j := RuleIndexById(rules', sync.syncRuleId);
        if j.Some? {
          rules' := rules'[j.value := SetField(rules'[j.value], f, v)];
        }
      }
      i := i + 1;
    }
    assert syncs[..i] == syncs;
  }

  /** One turn of the field sync loop: the sync row `i` adds its target when it belongs to the rule. */
  lemma SyncFieldTurn(rules: seq<ForwardRule>, syncs: seq<RuleSync>, i: nat, ruleId: int, f: PromptField, v: Option<string>)
    requires i < |syncs|
    ensures var before := Propagate(rules, SyncTargets(syncs[..i], ruleId), f, v);
      var x := syncs[i].syncRuleId;
      Propagate(rules, SyncTargets(syncs[..i + 1], ruleId), f, v) ==
        if syncs[i].ruleId != ruleId then before
        else match RuleIndexById(before, x)
          case None => before
          case Some(j) => before[j := SetField(before[j], f, v)]
  {
    var targets := SyncTargets(syncs[..i], ruleId);
    assert syncs[..i + 1][..i] == syncs[..i];
    if syncs[i].ruleId == ruleId {
      assert SyncTargets(syncs[..i + 1], ruleId) == targets + [syncs[i].syncRuleId];
      PropagateAppend(rules, targets, syncs[i].syncRuleId, f, v);
    } else {
      assert SyncTargets(syncs[..i + 1], ruleId) == targets;
    }
  }

  /** The push sync loop over the rule's sync rows. */
  method SyncPushChannel(t: Tables, syncs: seq<RuleSync>, ruleId: int, channel: string, mode: string)
    returns (t': Tables)
    ensures t' == SyncPush(t, SyncTargets(syncs, ruleId), channel, mode)
  {
    t' := t;
    var i := 0;
    while i < |syncs|
      invariant 0 <= i <= |syncs|
      invariant t' == SyncPush(t, SyncTargets(syncs[..i], ruleId), channel, mode)
    {
      var sync := syncs[i];
      var targets := SyncTargets(syncs[..i], ruleId);
      assert syncs[..i + 1][..i] == syncs[..i] && syncs[..i + 1][i] == sync;
      if sync.ruleId != ruleId {
        assert SyncTargets(syncs[..i + 1], ruleId) == targets;
      } else {
        var next := targets + [sync.syncRuleId];
        assert SyncTargets(syncs[..i + 1], ruleId) == next;
        assert next[..|targets|] == targets && next[|targets|] == sync.syncRuleId;
        var target := sync.syncRuleId;
        var j := RuleIndexById(t'.rules, target);
        if j.Some? && !HasPushConfig(t'.pushConfigs, target, channel) {
          t' := t'.(pushConfigs := t'.pushConfigs + [PushConfig(target, channel, true, mode)],
                    rules := t'.rules[j.value := t'.rules[j.value].(enablePush := true)]);
        }
      }
      i := i + 1;
    }
    assert syncs[..i] == syncs;
  }

  /** `handle_prompt_setting` in a session of its own, closed on every path. */
  method HandlePromptSetting(db: Tables, state: string, text: string, commitOk: bool, syncCommitOk: bool)
    returns (reply: Reply, committed: Tables)
    ensures (reply, committed) == HandlePrompt(db, state, text, commitOk, syncCommitOk)
  {
    if state == "" {
      return Declined, db;
    }
    match ParsePromptState(state) {
      case UnknownState =>
        return Declined, db;
      case AddsPushChannel(r) =>
        reply, committed := HandleAddPushChannel(db, r, text, commitOk);
      case SetsField(f, r) =>
        reply, committed := SetPromptInSession(db, f, r, text, commitOk, syncCommitOk);
    }
  }

  method SetPromptInSession(db: Tables, f: PromptField, ruleIdText: string, text: string, commitOk: bool, syncCommitOk: bool)
    returns (reply: Reply, committed: Tables)
    ensures (reply, committed) == SetPrompt(db, f, ruleIdText, text, commitOk, syncCommitOk)
  {
    var session := new Session(db);
    var id := RuleIdKey(ruleIdText);
    if id.None? {
      session.Close();
      return ErrorRaised, session.durable;
    }
    var i := RuleIndexById(session.pending.rules, id.value);
    if i.None? {
      session.Close();
      return Accepted, session.durable;
    }
    var rule := session.pending.rules[i.value];
    var v := NewValue(f, text);
    session.Stage(session.pending.(rules := session.pending.rules[i.value := SetField(rule, f, v)]));
    var ok := session.Commit(commitOk);
    if !ok {
      session.Rollback();
      session.Close();
      return ErrorRaised, session.durable;
    }
    if rule.enableSync {
      var rules' := SyncField(session.pending.rules, session.pending.syncs, id.value, f, v);
      session.Stage(session.pending.(rules := rules'));
      ok := session.Commit(syncCommitOk);
      if !ok {
        session.Rollback();
        session.Close();
        return ErrorRaised, session.durable;
      }
    }
    session.Close();
    return Accepted, session.durable;
  }

  /** `handle_add_push_channel` in a session of its own, closed on every path. */
  method HandleAddPushChannel(db: Tables, ruleIdText: string, text: string, commitOk: bool)
    returns (reply: Reply, committed: Tables)
    ensures (reply, committed) == AddPushChannel(db, ruleIdText, text, commitOk)
  {
    var session := new Session(db);
    var id := RuleIdKey(ruleIdText);
    if id.None? {
      session.Close();
      return Declined, session.durable;
    }
    var i := RuleIndexById(session.pending.rules, id.value);
    if i.None? {
      session.Close();
      return Declined, session.durable;
    }
    var rule := session.pending.rules[i.value];
    var channel := Strip(text);
    var mode := MediaSendMode(channel);
    var t := session.pending;
    t := t.(pushConfigs := t.pushConfigs + [PushConfig(id.value, channel, true, mode)],
            rules := t.rules[i.value := rule.(enablePush := true)]);
    if rule.enableSync {
      t := SyncPushChannel(t, db.syncs, id.value, channel, mode);
    }
    session.Stage(t);
    var ok := session.Commit(commitOk);
    if !ok {
      session.Rollback();
    }
    session.Close();
    return Accepted, session.durable;
  }
}
