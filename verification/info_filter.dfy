/**
 * The info filter (`InfoFilter._process`): the text a forwarded message is
 * decorated with, driven by the rule's flags. The comment prefix, the link
 * to the channel post a comment answers, the link to the original message,
 * the sender line and the time line, each written into the message context.
 *
 * The link to the channel post and the formatted time come from outside
 * (the platform and the clock) and are parameters.
 */
module InfoFilter {
  import opened Wrappers
  import opened Text
  import opened Models
  import opened MessageListener

  const ContextLinkLabel: string := "\n\n原频道消息: "
  const DefaultLinkLabel: string := "\n\n原始消息: "
  const UnknownSenderName: string := "Unknown Sender"
  const UnknownChannelName: string := "Unknown Channel"
  const UnknownSenderId: string := "Unknown"

  /** A text column is truthy when set and non-empty. */
  predicate Truthy(s: Option<string>) {
    s.Some? && s.value != ""
  }

  /** An id is truthy when set and non-zero. */
  predicate TruthyId(n: Option<int>) {
    n.Some? && n.value != 0
  }

  /** The context's `comment_metadata` marks the message as a comment (an absent entry reads as `False`). */
  predicate MarkedComment(meta: Option<CommentMetadata>) {
    meta.Some? && meta.value.isComment
  }

  // ------------------------------------------------------------ comment prefix and links

  /**
   * The comment prefix: the rule's prefix (the default one when it is unset
   * or empty) and a blank line, only for a comment under a rule that
   * forwards comments; empty otherwise.
   */
  function CommentPrefix(rule: ForwardRule, meta: Option<CommentMetadata>): (p: string)
    ensures p != "" <==> MarkedComment(meta) && rule.enableCommentForward
    ensures p != "" ==> |p| >= 2 && p[|p| - 2..] == "\n\n"
    ensures p != "" && Truthy(rule.commentMessagePrefix) ==> p == rule.commentMessagePrefix.value + "\n\n"
    ensures p != "" && !Truthy(rule.commentMessagePrefix) ==> p == DefaultCommentPrefix + "\n\n"
  {
    if MarkedComment(meta) && rule.enableCommentForward then
      (if Truthy(rule.commentMessagePrefix) then rule.commentMessagePrefix.value else DefaultCommentPrefix) + "\n\n"
    else ""
  }

  /**
   * The link to the channel post a comment answers, when the rule asks for
   * comment context and both ids are known and non-zero.
   */
  function ContextLink(rule: ForwardRule, meta: Option<CommentMetadata>, postLink: string): Option<string> {
    if MarkedComment(meta) && rule.enableCommentForward && rule.enableCommentContext &&
       TruthyId(meta.value.originalChannelChatId) && TruthyId(meta.value.originalMessageId)
    then Some(ContextLinkLabel + postLink)
    else None
  }

  /** `https://t.me/c/{str(chat_id)[4:]}/{msg_id}`. */
  function OriginalUrl(chatId: int, messageId: int): string {
    "https://t.me/c/" + DropPrefix(IntToString(chatId), 4) + "/" + IntToString(messageId)
  }

  /** The original-message link: the rule's template with the url put in, or the default label and the url. */
  function OriginalLinkText(rule: ForwardRule, chatId: int, messageId: int): string {
    var url := OriginalUrl(chatId, messageId);
    if Truthy(rule.originalLinkTemplate) then "\n\n" + Replace(rule.originalLinkTemplate.value, "{original_link}", url)
    else DefaultLinkLabel + url
  }

  /**
   * A channel's message carries the marked id `-100…`; the link drops the
   * sign and the mark and keeps the channel's own id.
   */
  lemma LinkOfMarkedChannel(channel: nat, messageId: int)
    ensures OriginalUrl(0 - MarkChannelId(channel) as int, messageId) ==
      "https://t.me/c/" + IntToString(channel) + "/" + IntToString(messageId)
  {
    MarkedIdText(channel);
  }

  /** `str(-m)[4:]` for the marked id `m` of a channel is the channel's id as text. */
  lemma MarkedIdText(channel: nat)
    ensures DropPrefix(IntToString(0 - MarkChannelId(channel) as int), 4) == IntToString(channel)
  {
    var m := MarkChannelId(channel);
    var tail := IntToString(channel);
    MarkedNonZero(channel);
    NegatedText(m);
    DropMarkedPrefix(IntToString(0 - m as int), tail);
  }

  lemma DropMarkedPrefix(s: string, tail: string)
    requires s == "-" + ("100" + tail)
    ensures DropPrefix(s, 4) == tail
  {
    assert s[4..] == tail;
  }

  lemma MarkedNonZero(channel: nat)
    ensures MarkChannelId(channel) > 0
  {
    var m := MarkChannelId(channel);
    assert |IntToString(m)| >= 4;
    assert m != 0 by {
      assert IntToString(0) == [DigitChar(0)];
    }
  }

  // ------------------------------------------------------------ sender

  /** Where the sender line's name and id come from. */
  datatype SenderSource =
    | SenderChat(title: Option<string>, id: int)             // posted as a channel; `None` when it has no title
    | TitledSender(name: string, id: int)                    // the sender entity has a title
    | PersonSender(firstName: Option<string>, lastName: Option<string>, id: int)
    | PeerChannel(channelId: int, lookedUpTitle: Option<string>)  // `None` when the lookup fails or gives no title
    | OtherPeer                                              // a peer without a channel id
    | NoSource

  /** A person's name: first and last name joined by a space, stripped; a missing part counts as empty. */
  function PersonName(firstName: Option<string>, lastName: Option<string>): (name: string)
    ensures name == Strip(firstName.GetOr("") + " " + lastName.GetOr(""))
    ensures name == [] || (!IsSpace(name[0]) && !IsSpace(name[|name| - 1]))
  {
    var s := firstName.GetOr("") + " " + lastName.GetOr("");
    var t := TrimStart(s);
    var u := TrimEnd(t);
    assert u == [] || u[0] == t[0];
    u
  }

  /** A person with neither name part set has an empty name. */
  lemma NamelessPersonHasEmptyName()
    ensures PersonName(None, None) == ""
  {
    var s := "" + " " + "";
    assert s == " " && IsSpace(s[0]);
    assert s[1..] == [];
    assert TrimStart(s) == [];
  }

  /** The sender's name and id as text, with the "Unknown" fall-backs. */
  function SenderNameAndId(src: SenderSource): (string, string) {
    match src
    case SenderChat(title, id) => (title.GetOr(UnknownChannelName), IntToString(id))
    case TitledSender(title, id) => (title, IntToString(id))
    case PersonSender(first, last, id) => (PersonName(first, last), IntToString(id))
    case PeerChannel(channelId, title) => (title.GetOr(UnknownChannelName), IntToString(channelId))
    case OtherPeer => (UnknownSenderName, UnknownSenderId)
    case NoSource => (UnknownSenderName, UnknownSenderId)
  }

  /** The sender line: the template with `{name}` and then `{id}` replaced, or the bare name; then a blank line. */
  function SenderText(rule: ForwardRule, src: SenderSource): string {
    var (name, id) := SenderNameAndId(src);
    if Truthy(rule.userinfoTemplate) then
      Replace(Replace(rule.userinfoTemplate.value, "{name}", name), "{id}", id) + "\n\n"
    else name + "\n\n"
  }

  /**
   * The template `{name}` gives the bare name, unless the name itself holds
   * `{id}`: the name goes in first, so its `{id}` is then replaced by the id.
   */
  lemma NameTemplateOrder(rule: ForwardRule, src: SenderSource)
    requires rule.userinfoTemplate == Some("{name}")
    ensures var (name, id) := SenderNameAndId(src);
      && (!Contains(name, "{id}") ==> SenderText(rule, src) == name + "\n\n")
      && (name == "{id}" ==> SenderText(rule, src) == id + "\n\n")
  {
    var (name, id) := SenderNameAndId(src);
    ReplaceWhole("{name}", name);
    if !Contains(name, "{id}") {
      ReplaceAbsent(name, "{id}", id);
    }
    if name == "{id}" {
      ReplaceWhole("{id}", id);
    }
  }

  /** A template without placeholders is used as it stands, whoever sent the message. */
  lemma FixedTemplateIgnoresSender(rule: ForwardRule, src: SenderSource)
    requires Truthy(rule.userinfoTemplate)
    requires !Contains(rule.userinfoTemplate.value, "{name}") && !Contains(rule.userinfoTemplate.value, "{id}")
    ensures SenderText(rule, src) == rule.userinfoTemplate.value + "\n\n"
  {
    var (name, id) := SenderNameAndId(src);
    ReplaceAbsent(rule.userinfoTemplate.value, "{name}", name);
    ReplaceAbsent(rule.userinfoTemplate.value, "{id}", id);
  }

  // ------------------------------------------------------------ time

  /** The time line: the template with `{time}` replaced, or the formatted time alone, after a blank line. */
  function TimeText(rule: ForwardRule, formattedTime: string): string {
    if Truthy(rule.timeTemplate) then "\n\n" + Replace(rule.timeTemplate.value, "{time}", formattedTime)
    else "\n\n" + formattedTime
  }

  /** The default template `{time}` gives the formatted time itself. */
  lemma DefaultTimeTemplate(id: int, src: int, tgt: int, formattedTime: string)
    ensures TimeText(NewRule(id, src, tgt), formattedTime) == "\n\n" + formattedTime
  {
    ReplaceWhole("{time}", formattedTime);
  }

  // ------------------------------------------------------------ the whole filter

  /** The message context's decoration fields. */
  datatype Decoration = Decoration(originalLink: string, senderInfo: string, timeInfo: string)

  /** What the filter reads of the message: the chat id, the message id and the sender. */
  datatype Message = Message(chatId: int, messageId: int, source: SenderSource)

  /** `_process`: the fields afterwards; a field the rule does not ask for keeps its value. */
  function Decorate(d: Decoration, rule: ForwardRule, meta: Option<CommentMetadata>, msg: Message,
                    postLink: string, formattedTime: string): (r: Decoration)
    ensures !rule.isOriginalTime ==> r.timeInfo == d.timeInfo
    ensures rule.isOriginalTime ==> StartsWith(r.timeInfo, "\n\n")
    ensures !rule.isOriginalSender && CommentPrefix(rule, meta) == "" ==> r.senderInfo == d.senderInfo
  {
    var prefix := CommentPrefix(rule, meta);
    var link := if rule.isOriginalLink then OriginalLinkText(rule, msg.chatId, msg.messageId)
      else ContextLink(rule, meta, postLink).GetOr(d.originalLink);
    var sender := if rule.isOriginalSender then prefix + SenderText(rule, msg.source)
      else if prefix != "" then prefix
      else d.senderInfo;
    var time := if rule.isOriginalTime then TimeText(rule, formattedTime) else d.timeInfo;
    Decoration(link, sender, time)
  }

  /**
   * The sender line starts with the comment prefix whenever it is written,
   * and it is written exactly when the rule asks for the sender or there is
   * a prefix.
   */
  lemma PrefixComesFirst(d: Decoration, rule: ForwardRule, meta: Option<CommentMetadata>, msg: Message,
                         postLink: string, formattedTime: string)
    ensures var after := Decorate(d, rule, meta, msg, postLink, formattedTime);
      var prefix := CommentPrefix(rule, meta);
      && (rule.isOriginalSender || prefix != "" ==> StartsWith(after.senderInfo, prefix))
      && (!rule.isOriginalSender && !(MarkedComment(meta) && rule.enableCommentForward) ==> after.senderInfo == d.senderInfo)
  {
    var prefix := CommentPrefix(rule, meta);
    var after := Decorate(d, rule, meta, msg, postLink, formattedTime);
    if rule.isOriginalSender {
      assert after.senderInfo[..|prefix|] == prefix;
    }
  }

  /**
   * With `is_original_link` the link field is the original-message link,
   * whatever was there before and whatever the comment context was.
   */
  lemma OriginalLinkOverridesContext(d1: Decoration, d2: Decoration, rule: ForwardRule,
                                     meta1: Option<CommentMetadata>, meta2: Option<CommentMetadata>,
                                     msg: Message, postLink1: string, postLink2: string, formattedTime: string)
    requires rule.isOriginalLink
    ensures Decorate(d1, rule, meta1, msg, postLink1, formattedTime).originalLink ==
            Decorate(d2, rule, meta2, msg, postLink2, formattedTime).originalLink
  {
  }

  /**
   * Without `is_original_link`, the link field is the channel post's link
   * exactly when the rule forwards comments with context and both ids are
   * truthy; otherwise it keeps its value.
   */
  lemma ContextLinkOnlyWhenComplete(d: Decoration, rule: ForwardRule, meta: Option<CommentMetadata>, msg: Message,
                                    postLink: string, formattedTime: string)
    requires !rule.isOriginalLink
    ensures var after := Decorate(d, rule, meta, msg, postLink, formattedTime);
      var complete := MarkedComment(meta) && rule.enableCommentForward && rule.enableCommentContext &&
        TruthyId(meta.value.originalChannelChatId) && TruthyId(meta.value.originalMessageId);
      && (complete ==> after.originalLink == ContextLinkLabel + postLink)
      && (!complete ==> after.originalLink == d.originalLink)
  {
  }

  // ------------------------------------------------------------ the context

  /** The message context's fields the filter writes, and the comment metadata it reads. */
  class MessageContext {
    var originalLink: string
    var senderInfo: string
    var timeInfo: string
    const commentMetadata: Option<CommentMetadata>

    constructor (commentMetadata: Option<CommentMetadata>)
      ensures this.commentMetadata == commentMetadata
      ensures originalLink == "" && senderInfo == "" && timeInfo == ""
    {
      this.commentMetadata := commentMetadata;
      originalLink, senderInfo, timeInfo := "", "", "";
    }

    /** `_process`: writes the fields step by step and always lets the message go on. */
    method Process(rule: ForwardRule, msg: Message, postLink: string, formattedTime: string) returns (proceed: bool)
      modifies this
      ensures proceed
      ensures Decoration(originalLink, senderInfo, timeInfo) ==
        Decorate(Decoration(old(originalLink), old(senderInfo), old(timeInfo)), rule, commentMetadata, msg, postLink, formattedTime)
    {
      var prefix := "";
      if MarkedComment(commentMetadata) && rule.enableCommentForward {
        prefix := (if Truthy(rule.commentMessagePrefix) then rule.commentMessagePrefix.value else DefaultCommentPrefix) + "\n\n";
        if rule.enableCommentContext {
          var channelId := commentMetadata.value.originalChannelChatId;
          var messageId := commentMetadata.value.originalMessageId;
          if TruthyId(channelId) && TruthyId(messageId) {
            originalLink := ContextLinkLabel + postLink;
          }
        }
      }
      if rule.isOriginalLink {
        var url := "https://t.me/c/" + DropPrefix(IntToString(msg.chatId), 4) + "/" + IntToString(msg.messageId);
        if Truthy(rule.originalLinkTemplate) {
          originalLink := "\n\n" + Replace(rule.originalLinkTemplate.value, "{original_link}", url);
        } else {
          originalLink := DefaultLinkLabel + url;
        }
      }
      if rule.isOriginalSender {
        senderInfo := prefix + SenderText(rule, msg.source);
      } else if prefix != "" {
        senderInfo := prefix;
      }
      if rule.isOriginalTime {
        timeInfo := TimeText(rule, formattedTime);
      }
      return true;
    }
  }
}
