/**
 * `MessageExtractorBot`: the forwarding methods, written as the source writes
 * them, one collaborator call at a time. The bot's view of the world (the
 * calls made so far and the temporary files still on disk) lives in two
 * fields, and every method is proved to leave them exactly as the matching
 * function of `Cascade` says.
 */
module BotHandler {
  import opened Wrappers
  import opened MessageLinks
  import opened Telegram
  import opened Cascade
  import MediaGroups

  /** How a message-link request ended. */
  datatype Outcome =
    | NotALink        // the text has no `t.me`: a usage reply, nothing forwarded
    | NothingFound    // the lookup gave nothing: a failure reply
    | Forwarded(msgs: seq<Message>, raised: bool)

  class Bot {
    var trace: seq<Event>
    var temps: set<string>
    /** How the Bot API and the user client answer each call. */
    const respond: Oracle

    constructor (respond: Oracle)
      ensures Now() == World([], {}) && this.respond == respond
    {
      this.respond := respond;
      trace := [];
      temps := {};
    }

    function Now(): World
      reads this
    {
      World(trace, temps)
    }

    /** One collaborator call. */
    method Request(c: Call) returns (r: Reply)
      modifies this
      ensures r == ReplyTo(respond, old(Now()), c)
      ensures Now() == Issue(respond, old(Now()), c)
    {
      r := respond(|trace|, c);
      trace := trace + [Api(c, r)];
      if c.DownloadMedia? && r.Returned? && r.path != "" {
        temps := temps + {r.path};
      }
    }

    /** `if os.path.exists(p): os.remove(p)`. */
    method Remove(p: string)
      modifies this
      ensures Now() == RemoveIfLive(old(Now()), p)
    {
      if p in temps {
        trace := trace + [Removed(p)];
        temps := temps - {p};
      }
    }

    /** `await asyncio.sleep(0.5)`. */
    method Pause()
      modifies this
      ensures Now() == World(old(trace) + [Sleep], old(temps))
    {
      trace := trace + [Sleep];
    }

    method ForwardOriginalMessage(m: Message, link: string) returns (raised: bool)
      modifies this
      ensures Run(Now(), raised) == Forward(respond, old(Now()), m, link)
    {
      var lt := LinkText(link);
      var r := Request(CopyMessage(m.chat, m.id));
      if r.Returned? {
        if lt == "" {
          return false;
        }
        r := Request(SendText(lt));
        if r.Returned? {
          return false;
        }
      }
      var bodyRaised := SendByKind(m, lt);
      if bodyRaised {
        r := Request(SendNotice(ForwardFailed));
        raised := r.Raised?;
      } else {
        raised := false;
      }
    }

    /** The `if ... elif ...` chain of `forward_original_message`. */
    method SendByKind(m: Message, lt: string) returns (raised: bool)
      modifies this
      ensures Run(Now(), raised) == ByKind(respond, old(Now()), m, lt)
    {
      match ShapeOf(m)
      case TextShape =>
        var r := Request(SendText(m.text + lt));
        raised := r.Raised?;
      case MediaShape(k, f) =>
        if Captioned(k) {
          var r := Request(SendMedia(k, FileId(f), Some(m.caption + lt)));
          if r.Returned? {
            raised := false;
          } else {
            raised := DownloadAndResendMedia(m, k, lt);
          }
        } else {
          var notice := SendNotice(if k == Sticker then StickerFailed(lt) else VideoNoteFailed(lt));
          var r := Request(SendMedia(k, FileId(f), None));
          if r.Returned? && lt != "" {
            r := Request(SendText(lt));
          }
          if r.Returned? {
            raised := false;
          } else {
            r := Request(notice);
            raised := r.Raised?;
          }
        }
      case NoShape =>
        var r := Request(SendNotice(UnsupportedMessage));
        raised := r.Raised?;
    }

    method DownloadAndResendMedia(m: Message, k: MediaKind, lt: string) returns (raised: bool)
      modifies this
      ensures Run(Now(), raised) == DownloadResend(respond, old(Now()), m, k, lt)
    {
      var r := Request(DownloadMedia(m.chat, m.id));
      if r.Returned? && r.path != "" {
        var path := r.path;
        r := Request(SendMedia(k, LocalFile(path), Some(m.caption + lt)));
        if r.Returned? {
          Remove(path);
          return false;
        }
      }
      r := Request(SendNotice(MediaFailed));
      raised := r.Raised?;
    }

    method DownloadAndSendMediaGroup(msgs: seq<Message>, lt: string) returns (raised: bool)
      modifies this
      ensures Run(Now(), raised) == DownloadGroup(respond, old(Now()), msgs, lt)
    {
      var first := FirstCaptionOf(msgs);
      var cap := first + lt;
      var files: seq<string> := [];
      var items: seq<InputMedia> := [];
      ghost var w0 := Now();
      for i := 0 to |msgs|
        invariant DownloadItems(respond, w0, msgs, cap, i) == Downloads(Now(), files, items)
      {
        files, items := DownloadRound(msgs, cap, i, files, items, w0);
      }
      if items == [] {
        return true;
      }
      var r := Request(if |items| > 1 then SendMediaGroup(items) else SendItem(items[0]));
      if r.Raised? {
        return true;
      }
      ghost var w1 := Now();
      for i := 0 to |files|
        invariant Now() == Cleanup(w1, files, i)
      {
        Remove(files[i]);
      }
      raised := false;
    }

    /** One round of Tier 3's download loop: message `i` is downloaded and, when its kind is known, becomes an item. */
    method DownloadRound(msgs: seq<Message>, cap: string, i: nat, files: seq<string>, items: seq<InputMedia>, ghost w0: World)
      returns (files': seq<string>, items': seq<InputMedia>)
      requires i < |msgs| && DownloadItems(respond, w0, msgs, cap, i) == Downloads(Now(), files, items)
      modifies this
      ensures DownloadItems(respond, w0, msgs, cap, i + 1) == Downloads(Now(), files', items')
    {
      var m := msgs[i];
      var r := Request(DownloadMedia(m.chat, m.id));
      files', items' := files, items;
      if r.Returned? && r.path != "" {
        files' := files + [r.path];
        match DownloadKind(m)
        case Some(kind) =>
          items' := items + [InputMedia(kind, LocalFile(r.path), ItemCaption(i, cap))];
        case None =>
      }
    }

    /** Tier 1: `copy_messages` of the whole album, then the link. */
    method CopyMediaGroup(msgs: seq<Message>, lt: string) returns (raised: bool)
      modifies this
      ensures Run(Now(), raised) == GroupCopy(respond, old(Now()), msgs, lt)
    {
      if msgs == [] {
        return true;
      }
      var r := Request(CopyMessages(msgs[0].chat, Ids(msgs)));
      if r.Raised? {
        return true;
      }
      if lt == "" {
        return false;
      }
      r := Request(SendText(lt));
      raised := r.Raised?;
    }

    /** Tier 2: the album rebuilt from `file_id`s. */
    method SendMediaGroupByFileId(msgs: seq<Message>, lt: string) returns (raised: bool)
      modifies this
      ensures Run(Now(), raised) == GroupByFileId(respond, old(Now()), msgs, lt)
    {
      var first := FirstCaptionOf(msgs);
      var items := FileIdMediaList(msgs, first + lt);
      if |items| > 1 {
        var r := Request(SendMediaGroup(items));
        raised := r.Raised?;
      } else if |items| == 1 {
        raised := ForwardOriginalMessage(msgs[0], "");
      } else {
        raised := true;
      }
    }

    /** Tier 4: each message forwarded on its own; returns `success_count`. */
    method ForwardOneByOne(msgs: seq<Message>, groupLink: string) returns (count: nat)
      modifies this
      ensures Tally(Now(), count) == OneByOne(respond, old(Now()), msgs, groupLink, |msgs|)
    {
      count := 0;
      ghost var w0 := Now();
      for i := 0 to |msgs|
        invariant Tally(Now(), count) == OneByOne(respond, w0, msgs, groupLink, i)
      {
        count := ForwardRound(msgs, groupLink, i, count, w0);
      }
    }

    /** One round of Tier 4's loop: item `i`, with the link only on item 0. */
    method ForwardRound(msgs: seq<Message>, groupLink: string, i: nat, count: nat, ghost w0: World) returns (count': nat)
      requires i < |msgs| && Tally(Now(), count) == OneByOne(respond, w0, msgs, groupLink, i)
      modifies this
      ensures Tally(Now(), count') == OneByOne(respond, w0, msgs, groupLink, i + 1)
    {
      OneByOneNext(respond, w0, msgs, groupLink, i);
      var failed := ForwardOriginalMessage(msgs[i], if i == 0 then groupLink else "");
      count' := count;
      if !failed {
        count' := count + 1;
        if i < |msgs| - 1 {
          Pause();
        }
      }
    }

    method ForwardMediaGroup(msgs: seq<Message>, link: string) returns (raised: bool)
      modifies this
      ensures Run(Now(), raised) == ForwardGroup(respond, old(Now()), msgs, link)
    {
      var lt := LinkText(link);
      var failed := CopyMediaGroup(msgs, lt);
      if !failed {
        return false;
      }
      failed := SendMediaGroupByFileId(msgs, lt);
      if !failed {
        return false;
      }
      failed := DownloadAndSendMediaGroup(msgs, lt);
      if !failed {
        return false;
      }
      var count := ForwardOneByOne(msgs, GroupLink(link));
      if count > 0 {
        return false;
      }
      var r := Request(SendNotice(GroupFailed));
      raised := r.Raised?;
    }

    /** The message handler after its checks: one message is forwarded alone, several as an album. */
    method HandleMessageLink(extractor: MediaGroups.MessageExtractor, messageText: string) returns (outcome: Outcome)
      modifies this
      ensures outcome.NotALink? <==> !Contains(Strip(messageText), "t.me")
      ensures outcome.NotALink? || outcome.NothingFound? ==> Now() == old(Now())
      ensures outcome.Forwarded? ==> outcome.msgs != []
      ensures outcome.Forwarded? && |outcome.msgs| > 1 ==>
                Run(Now(), outcome.raised) == ForwardGroup(respond, old(Now()), outcome.msgs, Strip(messageText))
      ensures outcome.Forwarded? && |outcome.msgs| == 1 ==>
                Run(Now(), outcome.raised) == Forward(respond, old(Now()), outcome.msgs[0], Strip(messageText))
      ensures outcome.Forwarded? ==>
                MediaGroups.Resolves(extractor.client, Strip(messageText), MediaGroups.Messages(outcome.msgs))
      ensures Contains(Strip(messageText), "t.me") ==>
                (outcome.NothingFound? <==>
                   || MediaGroups.Resolves(extractor.client, Strip(messageText), MediaGroups.NotInitialised)
                   || MediaGroups.Resolves(extractor.client, Strip(messageText), MediaGroups.NoMessages))
    {
      var text := Strip(messageText);
      if !Contains(text, "t.me") {
        return NotALink;
      }
      var found := extractor.GetMediaGroupMessages(text);
      MediaGroups.ResolvesTag(extractor.client, text, found);
      outcome := ForwardFound(found, text);
    }

    /** The branch on what the lookup found: nothing, several messages (an album), or one. */
    method ForwardFound(found: MediaGroups.Lookup, text: string) returns (outcome: Outcome)
      modifies this
      ensures outcome.Forwarded? <==> found.Messages? && found.msgs != []
      ensures outcome.Forwarded? ==> found == MediaGroups.Messages(outcome.msgs)
      ensures !outcome.Forwarded? ==> outcome == NothingFound && Now() == old(Now())
      ensures outcome.Forwarded? && |outcome.msgs| > 1 ==>
                Run(Now(), outcome.raised) == ForwardGroup(respond, old(Now()), outcome.msgs, text)
      ensures outcome.Forwarded? && |outcome.msgs| == 1 ==>
                Run(Now(), outcome.raised) == Forward(respond, old(Now()), outcome.msgs[0], text)
    {
      if !found.Messages? || found.msgs == [] {
        return NothingFound;
      }
      var raised;
      if |found.msgs| > 1 {
        raised := ForwardMediaGroup(found.msgs, text);
      } else {
        raised := ForwardOriginalMessage(found.msgs[0], text);
      }
      return Forwarded(found.msgs, raised);
    }
  }

  /** The loop that finds `first_caption`. */
  method FirstCaptionOf(msgs: seq<Message>) returns (first: string)
    ensures first == FirstCaption(msgs)
  {
    first := "";
    var i := 0;
    while i < |msgs|
      invariant 0 <= i <= |msgs|
      invariant FirstCaption(msgs) == FirstCaption(msgs[i..])
    {
      if msgs[i].caption != "" {
        return msgs[i].caption;
      }
      assert msgs[i..][1..] == msgs[i + 1..];
      i := i + 1;
    }
  }

  /** Tier 2's loop building `media_list` from `file_id`s. */
  method FileIdMediaList(msgs: seq<Message>, cap: string) returns (items: seq<InputMedia>)
    ensures items == FileIdItems(msgs, cap, |msgs|)
  {
    items := [];
    for i := 0 to |msgs|
      invariant items == FileIdItems(msgs, cap, i)
    {
      match FileIdPick(msgs[i])
      case Some(p) =>
        items := items + [InputMedia(p.kind, FileId(p.fileId), ItemCaption(i, cap))];
      case None =>
    }
  }
}
