/**
 * The forwarding cascade of the bot, stated as functions of the world: each
 * function gives the world after a forwarding operation and whether an
 * exception escaped it. The methods of `BotHandler.Bot` are proved to follow
 * these functions call for call.
 */
module Cascade {
  import opened Wrappers
  import opened MessageLinks
  import opened Telegram

  /** The end of an operation: the world after it, and whether an exception escaped. */
  datatype Run = Run(world: World, raised: bool)

  /** Makes a call whose failure is not caught: the exception escapes. */
  function SendOrRaise(o: Oracle, w: World, c: Call): (r: Run)
    ensures r.world == Issue(o, w, c) && (r.raised <==> !Succeeds(o, w, c))
  {
    Run(Issue(o, w, c), !Succeeds(o, w, c))
  }

  // ---------------------------------------------------------------------
  // forward_original_message
  // ---------------------------------------------------------------------

  /** Which branch of the per-kind dispatch a message takes. */
  datatype Shape = TextShape | MediaShape(kind: MediaKind, fileId: string) | NoShape

  /** The first present kind, in the order text, photo, video, document, audio, voice, sticker, animation, video note. */
  function ShapeOf(m: Message): Shape {
    if m.text != "" then TextShape
    else if m.photo.Some? then MediaShape(Photo, m.photo.value)
    else if m.video.Some? then MediaShape(Video, m.video.value)
    else if m.document.Some? then MediaShape(Document, m.document.value.fileId)
    else if m.audio.Some? then MediaShape(Audio, m.audio.value)
    else if m.voice.Some? then MediaShape(Voice, m.voice.value)
    else if m.sticker.Some? then MediaShape(Sticker, m.sticker.value)
    else if m.animation.Some? then MediaShape(Animation, m.animation.value)
    else if m.videoNote.Some? then MediaShape(VideoNote, m.videoNote.value)
    else NoShape
  }

  /** The kinds sent with a caption; a failed send of one of them falls back to download and resend. */
  predicate Captioned(k: MediaKind) {
    k != Sticker && k != VideoNote
  }

  /** `forward_original_message`: copy, or send by kind, with the error notice as last resort. */
  function Forward(o: Oracle, w: World, m: Message, link: string): Run {
    var lt := LinkText(link);
    var copy := CopyMessage(m.chat, m.id);
    var w1 := Issue(o, w, copy);
    if !Succeeds(o, w, copy) then Guarded(o, ByKind(o, w1, m, lt))
    else if lt == "" then Run(w1, false)
    else if Succeeds(o, w1, SendText(lt)) then Run(Issue(o, w1, SendText(lt)), false)
    else Guarded(o, ByKind(o, Issue(o, w1, SendText(lt)), m, lt))
  }

  /** The outer `except` of `forward_original_message`: an escaped exception is reported by a notice. */
  function Guarded(o: Oracle, r: Run): Run {
    if r.raised then SendOrRaise(o, r.world, SendNotice(ForwardFailed)) else r
  }

  /** The per-kind dispatch after a failed copy. */
  function ByKind(o: Oracle, w: World, m: Message, lt: string): Run {
    match ShapeOf(m)
    case TextShape => SendOrRaise(o, w, SendText(m.text + lt))
    case MediaShape(k, f) =>
      if Captioned(k) then
        var c := SendMedia(k, FileId(f), Some(m.caption + lt));
        if Succeeds(o, w, c) then Run(Issue(o, w, c), false)
        else DownloadResend(o, Issue(o, w, c), m, k, lt)
      else
        var c := SendMedia(k, FileId(f), None);
        var w1 := Issue(o, w, c);
        var notice := SendNotice(if k == Sticker then StickerFailed(lt) else VideoNoteFailed(lt));
        if !Succeeds(o, w, c) then SendOrRaise(o, w1, notice)
        else if lt == "" then Run(w1, false)
        else if Succeeds(o, w1, SendText(lt)) then Run(Issue(o, w1, SendText(lt)), false)
        else SendOrRaise(o, Issue(o, w1, SendText(lt)), notice)
    case NoShape => SendOrRaise(o, w, SendNotice(UnsupportedMessage))
  }

  /** `download_and_resend_media`: download, resend from the local file, and remove it only after a successful resend. */
  function DownloadResend(o: Oracle, w: World, m: Message, k: MediaKind, lt: string): Run {
    var d := DownloadMedia(m.chat, m.id);
    var w1 := Issue(o, w, d);
    var r := ReplyTo(o, w, d);
    if r.Raised? || r.path == "" then SendOrRaise(o, w1, SendNotice(MediaFailed))
    else
      var c := SendMedia(k, LocalFile(r.path), Some(m.caption + lt));
      if Succeeds(o, w1, c) then Run(RemoveIfLive(Issue(o, w1, c), r.path), false)
      else SendOrRaise(o, Issue(o, w1, c), SendNotice(MediaFailed))
  }

  // ---------------------------------------------------------------------
  // Album captions and classification
  // ---------------------------------------------------------------------

  /** The caption of the first message that has one, or "". */
  function FirstCaption(msgs: seq<Message>): (c: string)
    ensures c == "" <==> forall i :: 0 <= i < |msgs| ==> msgs[i].caption == ""
    ensures c != "" ==> exists i :: 0 <= i < |msgs| && msgs[i].caption == c &&
                                    forall j :: 0 <= j < i ==> msgs[j].caption == ""
  {
    if msgs == [] then ""
    else if msgs[0].caption != "" then msgs[0].caption
    else
      var c := FirstCaption(msgs[1..]);
      assert c != "" ==> exists i :: 0 <= i < |msgs| && msgs[i].caption == c &&
                                     forall j :: 0 <= j < i ==> msgs[j].caption == "" by {
        if c != "" {
          var i :| 0 <= i < |msgs[1..]| && msgs[1..][i].caption == c &&
                   forall j :: 0 <= j < i ==> msgs[1..][j].caption == "";
          assert msgs[i + 1].caption == c;
        }
      }
      c
  }

  /** An album item chosen by `file_id`: its class and the attachment it sends. */
  datatype Pick = Pick(kind: InputKind, fileId: string)

  predicate HasMimePrefix(m: Message, prefix: string) {
    m.document.Some? && StartsWith(m.document.value.mimeType, prefix)
  }

  /** Tier 2 classification: photo, video, image or video document, audio; anything else is skipped. */
  function FileIdPick(m: Message): Option<Pick> {
    if m.photo.Some? then Some(Pick(InputPhoto, m.photo.value))
    else if m.video.Some? then Some(Pick(InputVideo, m.video.value))
    else if HasMimePrefix(m, "image/") then Some(Pick(InputPhoto, m.document.value.fileId))
    else if HasMimePrefix(m, "video/") then Some(Pick(InputVideo, m.document.value.fileId))
    else if m.audio.Some? then Some(Pick(InputAudio, m.audio.value))
    else None
  }

  /** Tier 3 classification of a downloaded file: as Tier 2, but every other document is kept as a document. */
  function DownloadKind(m: Message): Option<InputKind> {
    if m.photo.Some? then Some(InputPhoto)
    else if m.video.Some? then Some(InputVideo)
    else if m.document.Some? then
      if HasMimePrefix(m, "image/") then Some(InputPhoto)
      else if HasMimePrefix(m, "video/") then Some(InputVideo)
      else Some(InputDocument)
    else if m.audio.Some? then Some(InputAudio)
    else None
  }

  /** The caption of the item built from message `i`: only index 0 of the messages gets one. */
  function ItemCaption(i: nat, cap: string): string {
    if i == 0 then cap else ""
  }

  /** Tier 2's `media_list` after the first `k` messages, with `cap` = first caption + link text. */
  function FileIdItems(msgs: seq<Message>, cap: string, k: nat): (items: seq<InputMedia>)
    requires k <= |msgs|
    ensures |items| <= k
    ensures forall j :: 0 <= j < |items| ==> items[j].media.FileId?
  {
    if k == 0 then []
    else
      FileIdItems(msgs, cap, k - 1) +
      match FileIdPick(msgs[k - 1])
      case Some(p) => [InputMedia(p.kind, FileId(p.fileId), ItemCaption(k - 1, cap))]
      case None => []
  }

  // ---------------------------------------------------------------------
  // forward_media_group
  // ---------------------------------------------------------------------

  /** `[msg.id for msg in messages]`. */
  function Ids(msgs: seq<Message>): (ids: seq<nat>)
    ensures |ids| == |msgs| && forall i :: 0 <= i < |msgs| ==> ids[i] == msgs[i].id
  {
    seq(|msgs|, i requires 0 <= i < |msgs| => msgs[i].id)
  }

  /** Tier 1: `copy_messages` from the chat of `messages[0]`, then the link. With no messages, `messages[0]` raises. */
  function GroupCopy(o: Oracle, w: World, msgs: seq<Message>, lt: string): Run {
    if msgs == [] then Run(w, true)
    else
      var copy := CopyMessages(msgs[0].chat, Ids(msgs));
      var w1 := Issue(o, w, copy);
      if !Succeeds(o, w, copy) then Run(w1, true)
      else if lt == "" then Run(w1, false)
      else SendOrRaise(o, w1, SendText(lt))
  }

  /** Tier 2: more than one item is sent as an album, one item re-forwards `messages[0]` without link, none falls through. */
  function GroupByFileId(o: Oracle, w: World, msgs: seq<Message>, lt: string): Run {
    var items := FileIdItems(msgs, FirstCaption(msgs) + lt, |msgs|);
    if |items| > 1 then SendOrRaise(o, w, SendMediaGroup(items))
    else if |items| == 1 then Forward(o, w, msgs[0], "")
    else Run(w, true)
  }

  /** The state of Tier 3's download loop: the world, the downloaded paths and the built items. */
  datatype Downloads = Downloads(world: World, files: seq<string>, items: seq<InputMedia>)

  /** Tier 3's loop after the first `k` messages: a raised or empty download skips the message. */
  function DownloadItems(o: Oracle, w: World, msgs: seq<Message>, cap: string, k: nat): (d: Downloads)
    requires k <= |msgs|
    ensures |d.items| <= |d.files| <= k
  {
    if k == 0 then Downloads(w, [], [])
    else
      var prev := DownloadItems(o, w, msgs, cap, k - 1);
      var m := msgs[k - 1];
      var c := DownloadMedia(m.chat, m.id);
      var r := ReplyTo(o, prev.world, c);
      var w1 := Issue(o, prev.world, c);
      if r.Raised? || r.path == "" then Downloads(w1, prev.files, prev.items)
      else
        Downloads(w1, prev.files + [r.path],
                  prev.items +
                  match DownloadKind(m)
                  case Some(kind) => [InputMedia(kind, LocalFile(r.path), ItemCaption(k - 1, cap))]
                  case None => [])
  }

  /** The paths in a list of downloaded files. */
  function Files(files: seq<string>): set<string> {
    set i | 0 <= i < |files| :: files[i]
  }

  /** Tier 3's clean-up loop over the first `k` downloaded paths. */
  function Cleanup(w: World, files: seq<string>, k: nat): (w': World)
    requires k <= |files|
    ensures w'.temps == w.temps - Files(files[..k])
  {
    if k == 0 then w else RemoveIfLive(Cleanup(w, files, k - 1), files[k - 1])
  }

  /** The single send Tier 3 makes for one item, by its class. */
  function SendItem(item: InputMedia): Call {
    SendMedia(MediaKindOf(item.kind), item.media, Some(item.caption))
  }

  /** `download_and_send_media_group`: the downloaded files are removed only after a successful send. */
  function DownloadGroup(o: Oracle, w: World, msgs: seq<Message>, lt: string): Run {
    var d := DownloadItems(o, w, msgs, FirstCaption(msgs) + lt, |msgs|);
    if d.items == [] then Run(d.world, true)
    else
      var c := if |d.items| > 1 then SendMediaGroup(d.items) else SendItem(d.items[0]);
      if Succeeds(o, d.world, c) then Run(Cleanup(Issue(o, d.world, c), d.files, |d.files|), false)
      else Run(Issue(o, d.world, c), true)
  }

  /** Tier 4's tally: the world and `success_count`. */
  datatype Tally = Tally(world: World, count: nat)

  /** Tier 4 after the first `k` messages: the link goes to item 0 only, and a pause follows each success but the last item's. */
  function OneByOne(o: Oracle, w: World, msgs: seq<Message>, link: string, k: nat): (t: Tally)
    requires k <= |msgs|
    ensures t.count <= k
  {
    if k == 0 then Tally(w, 0)
    else
      var prev := OneByOne(o, w, msgs, link, k - 1);
      Step(prev, Forward(o, prev.world, msgs[k - 1], if k - 1 == 0 then link else ""), k - 1 < |msgs| - 1)
  }

  /** Tier 4's next round, spelled out for the loop that runs it. */
  lemma OneByOneNext(o: Oracle, w: World, msgs: seq<Message>, link: string, k: nat)
    requires k < |msgs|
    ensures var prev := OneByOne(o, w, msgs, link, k);
            OneByOne(o, w, msgs, link, k + 1)
            == Step(prev, Forward(o, prev.world, msgs[k], if k == 0 then link else ""), k < |msgs| - 1)
  {
  }

  /** One round of Tier 4: a success is counted and, unless it is the last item, followed by a pause. */
  function Step(prev: Tally, r: Run, pause: bool): (t: Tally)
    ensures t.count == if r.raised then prev.count else prev.count + 1
  {
    if r.raised then Tally(r.world, prev.count)
    else if pause then Tally(World(r.world.trace + [Sleep], r.world.temps), prev.count + 1)
    else Tally(r.world, prev.count + 1)
  }

  /** The link as `forward_media_group` keeps it after normalising it (a falsy link stays falsy). */
  function GroupLink(link: string): string {
    if link == "" then "" else NormaliseLink(link)
  }

  /** `forward_media_group`: the four tiers in order, stopping at the first that delivers. */
  function ForwardGroup(o: Oracle, w: World, msgs: seq<Message>, link: string): Run {
    var lt := LinkText(link);
    var t1 := GroupCopy(o, w, msgs, lt);
    if !t1.raised then t1
    else
      var t2 := GroupByFileId(o, t1.world, msgs, lt);
      if !t2.raised then t2
      else
        var t3 := DownloadGroup(o, t2.world, msgs, lt);
        if !t3.raised then t3
        else
          var t4 := OneByOne(o, t3.world, msgs, GroupLink(link), |msgs|);
          if t4.count > 0 then Run(t4.world, false)
          else SendOrRaise(o, t4.world, SendNotice(GroupFailed))
  }
}
