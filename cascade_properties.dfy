/**
 * What the forwarding cascade guarantees, and where it lets content slip:
 * how each operation ends, which item carries the album caption, how the
 * two album classifications differ, when temporary files are removed, and
 * how Tier 4 counts and paces its deliveries.
 */
module CascadeProperties {
  import opened Wrappers
  import opened Telegram
  import opened Cascade

  function Last(t: seq<Event>): Event
    requires t != []
  {
    t[|t| - 1]
  }

  /** The trace ends with a call that returned, or with the removal of a file. */
  predicate EndsQuietly(t: seq<Event>) {
    t != [] && (Last(t).Removed? || (Last(t).Api? && Last(t).reply.Returned?))
  }

  /** `t'` extends `t` without any pause. */
  predicate NoSleepAfter(t: seq<Event>, t': seq<Event>) {
    t <= t' && forall i :: |t| <= i < |t'| ==> !t'[i].Sleep?
  }

  // ---------------------------------------------------------------------
  // download_and_resend_media and forward_original_message
  // ---------------------------------------------------------------------

  /**
   * How an operation that started in `w` settled: it made at least one call,
   * made no pause, and either raised at a call that raised or ended quietly.
   */
  predicate Settles(w: World, r: Run) {
    |r.world.trace| > |w.trace| && NoSleepAfter(w.trace, r.world.trace) &&
    (r.raised ==> Last(r.world.trace).Api? && Last(r.world.trace).reply.Raised?) &&
    (!r.raised ==> EndsQuietly(r.world.trace))
  }

  /** The resend from disk escapes only through its own failure notice; success ends in the file's removal. */
  lemma DownloadResendOutcome(o: Oracle, w: World, m: Message, k: MediaKind, lt: string)
    ensures Settles(w, DownloadResend(o, w, m, k, lt))
    ensures DownloadResend(o, w, m, k, lt).raised ==>
              Last(DownloadResend(o, w, m, k, lt).world.trace) == Api(SendNotice(MediaFailed), Raised)
  {
    var d := DownloadMedia(m.chat, m.id);
    var reply := ReplyTo(o, w, d);
    if reply.Returned? && reply.path != "" {
      var w1 := Issue(o, w, d);
      assert reply.path in w1.temps;
      var c := SendMedia(k, LocalFile(reply.path), Some(m.caption + lt));
      if Succeeds(o, w1, c) {
        assert reply.path in Issue(o, w1, c).temps;
      }
    }
  }

  /**
   * The downloaded file is removed exactly when the resend succeeds: a failed
   * resend leaves it on disk, and without a download nothing changes on disk.
   */
  lemma DownloadResendTemps(o: Oracle, w: World, m: Message, k: MediaKind, lt: string)
    ensures var d := DownloadMedia(m.chat, m.id);
            var reply := ReplyTo(o, w, d);
            var r := DownloadResend(o, w, m, k, lt);
            (reply.Raised? || reply.path == "" ==> r.world.temps == w.temps) &&
            (reply.Returned? && reply.path != "" ==>
               if Succeeds(o, Issue(o, w, d), SendMedia(k, LocalFile(reply.path), Some(m.caption + lt)))
               then !r.raised && r.world.temps == w.temps - {reply.path}
               else r.world.temps == w.temps + {reply.path})
  {
  }

  /** The per-kind dispatch settles: when it raises, its last call raised; otherwise it ends quietly. */
  lemma ByKindOutcome(o: Oracle, w: World, m: Message, lt: string)
    ensures Settles(w, ByKind(o, w, m, lt))
  {
    match ShapeOf(m)
    case MediaShape(k, f) =>
      if Captioned(k) {
        var c := SendMedia(k, FileId(f), Some(m.caption + lt));
        DownloadResendOutcome(o, Issue(o, w, c), m, k, lt);
      }
    case _ =>
  }

  /** What settles after `w'` settles after any earlier `w` that `w'` extends without a pause. */
  lemma SettlesEarlier(w: World, w': World, r: Run)
    requires NoSleepAfter(w.trace, w'.trace) && Settles(w', r)
    ensures Settles(w, r)
  {
    assert r.world.trace[..|w.trace|] == r.world.trace[..|w'.trace|][..|w.trace|];
    forall i | |w.trace| <= i < |r.world.trace|
      ensures !r.world.trace[i].Sleep?
    {
      if i < |w'.trace| {
        assert r.world.trace[i] == w'.trace[i];
      }
    }
  }

  /** The outer `except` turns any escaped exception into the notice, which is then the only way out. */
  lemma GuardedOutcome(o: Oracle, w: World, r: Run)
    requires Settles(w, r)
    ensures Settles(w, Guarded(o, r))
    ensures Guarded(o, r).raised <==> Last(Guarded(o, r).world.trace) == Api(SendNotice(ForwardFailed), Raised)
  {
  }

  /**
   * `forward_original_message` lets an exception escape only when its own
   * error notice cannot be sent; in every other case it ends with a call
   * that returned, or a file removal.
   */
  lemma ForwardOutcome(o: Oracle, w: World, m: Message, link: string)
    ensures Settles(w, Forward(o, w, m, link))
    ensures Forward(o, w, m, link).raised <==>
            Last(Forward(o, w, m, link).world.trace) == Api(SendNotice(ForwardFailed), Raised)
  {
    var lt := LinkText(link);
    var copy := CopyMessage(m.chat, m.id);
    var w1 := Issue(o, w, copy);
    if !Succeeds(o, w, copy) {
      ByKindOutcome(o, w1, m, lt);
      SettlesEarlier(w, w1, ByKind(o, w1, m, lt));
      GuardedOutcome(o, w, ByKind(o, w1, m, lt));
    } else if lt != "" && !Succeeds(o, w1, SendText(lt)) {
      var w2 := Issue(o, w1, SendText(lt));
      ByKindOutcome(o, w2, m, lt);
      SettlesEarlier(w, w2, ByKind(o, w2, m, lt));
      GuardedOutcome(o, w, ByKind(o, w2, m, lt));
    }
  }

  /** Tier 1 of a single message: a successful copy (and link) is all that is sent. */
  lemma ForwardStopsAfterCopy(o: Oracle, w: World, m: Message, link: string)
    requires Succeeds(o, w, CopyMessage(m.chat, m.id))
    requires LinkText(link) == "" || Succeeds(o, Issue(o, w, CopyMessage(m.chat, m.id)), SendText(LinkText(link)))
    ensures var r := Forward(o, w, m, link);
            var copy := CopyMessage(m.chat, m.id);
            var lt := LinkText(link);
            !r.raised && r.world.temps == w.temps &&
            r.world.trace == w.trace + [Api(copy, ReplyTo(o, w, copy))] +
                             (if lt == "" then [] else [Api(SendText(lt), ReplyTo(o, Issue(o, w, copy), SendText(lt)))])
  {
  }

  /**
   * A copy that succeeded followed by a link send that failed falls through
   * to the per-kind send: a text message is then delivered twice.
   */
  lemma DuplicateDelivery(o: Oracle, w: World, m: Message, link: string)
    requires m.text != "" && link != ""
    requires Succeeds(o, w, CopyMessage(m.chat, m.id))
    requires !Succeeds(o, Issue(o, w, CopyMessage(m.chat, m.id)), SendText(LinkText(link)))
    requires Succeeds(o, Issue(o, Issue(o, w, CopyMessage(m.chat, m.id)), SendText(LinkText(link))),
                      SendText(m.text + LinkText(link)))
    ensures var r := Forward(o, w, m, link);
            var copy := CopyMessage(m.chat, m.id);
            var w1 := Issue(o, w, copy);
            var lt := LinkText(link);
            var w2 := Issue(o, w1, SendText(lt));
            !r.raised &&
            r.world.trace == w.trace + [Api(copy, ReplyTo(o, w, copy)), Api(SendText(lt), Raised),
                                        Api(SendText(m.text + lt), ReplyTo(o, w2, SendText(m.text + lt)))]
  {
  }

  // ---------------------------------------------------------------------
  // Album captions and classification
  // ---------------------------------------------------------------------

  /**
   * Tier 2 captions: only an item built from `messages[0]` carries the
   * caption. When `messages[0]` gives no item, every item has an empty
   * caption and the album's caption and link are lost.
   */
  lemma {:induction false} FileIdCaptions(msgs: seq<Message>, cap: string, k: nat)
    requires k <= |msgs|
    ensures var items := FileIdItems(msgs, cap, k);
            (forall j :: 0 < j < |items| ==> items[j].caption == "") &&
            (0 < k && FileIdPick(msgs[0]).Some? ==>
               items != [] &&
               items[0] == InputMedia(FileIdPick(msgs[0]).value.kind, FileId(FileIdPick(msgs[0]).value.fileId), cap)) &&
            (0 < k && FileIdPick(msgs[0]).None? ==> forall j :: 0 <= j < |items| ==> items[j].caption == "")
  {
    if k > 0 {
      FileIdCaptions(msgs, cap, k - 1);
    }
  }

  /**
   * Tier 3 captions: only an item built from `messages[0]` carries the
   * caption; when `messages[0]` has no kind Tier 3 knows, or its download
   * gives no file, the caption is lost.
   */
  lemma {:induction false} DownloadCaptions(o: Oracle, w: World, msgs: seq<Message>, cap: string, k: nat)
    requires k <= |msgs|
    ensures var items := DownloadItems(o, w, msgs, cap, k).items;
            (forall j :: 0 < j < |items| ==> items[j].caption == "") &&
            (0 < k ==>
               var reply := ReplyTo(o, w, DownloadMedia(msgs[0].chat, msgs[0].id));
               if reply.Returned? && reply.path != "" && DownloadKind(msgs[0]).Some?
               then items != [] && items[0] == InputMedia(DownloadKind(msgs[0]).value, LocalFile(reply.path), cap)
               else forall j :: 0 <= j < |items| ==> items[j].caption == "")
  {
    if k > 0 {
      DownloadCaptions(o, w, msgs, cap, k - 1);
    }
  }

  /**
   * Tier 3 keeps what Tier 2 keeps, with the same class, except for a
   * document that is neither an image nor a video (and comes without photo
   * or video): Tier 3 sends it as a document, even when the message also has
   * audio that Tier 2 would send as audio.
   */
  lemma ClassificationAgreement(m: Message)
    ensures var other := m.photo.None? && m.video.None? && m.document.Some? &&
                         !HasMimePrefix(m, "image/") && !HasMimePrefix(m, "video/");
            (other ==> DownloadKind(m) == Some(InputDocument) &&
                       FileIdPick(m) == (if m.audio.Some? then Some(Pick(InputAudio, m.audio.value)) else None)) &&
            (!other ==> DownloadKind(m) == match FileIdPick(m) case Some(p) => Some(p.kind) case None => None)
  {
  }

  /** A document is never skipped by Tier 3, and Tier 2 keeps one only for an image or video MIME type. */
  lemma DocumentsKept(m: Message)
    requires m.document.Some? && m.photo.None? && m.video.None? && m.audio.None?
    ensures DownloadKind(m).Some?
    ensures FileIdPick(m).Some? <==> HasMimePrefix(m, "image/") || HasMimePrefix(m, "video/")
  {
  }

  /**
   * Tier 2 with exactly one usable message, at any position `i`: the one item is
   * that message's, captioned only when `i == 0`, and the album is re-forwarded
   * as `messages[0]` without link.
   */
  lemma SingleItemForwardsFirst(o: Oracle, w: World, msgs: seq<Message>, lt: string, i: nat)
    requires i < |msgs| && FileIdPick(msgs[i]).Some?
    requires forall j :: 0 <= j < |msgs| && j != i ==> FileIdPick(msgs[j]).None?
    ensures var p := FileIdPick(msgs[i]).value;
            FileIdItems(msgs, FirstCaption(msgs) + lt, |msgs|) ==
              [InputMedia(p.kind, FileId(p.fileId), if i == 0 then FirstCaption(msgs) + lt else "")]
    ensures GroupByFileId(o, w, msgs, lt) == Forward(o, w, msgs[0], "")
  {
    OnlyPickItems(msgs, FirstCaption(msgs) + lt, i, |msgs|);
  }

  /** `FileIdItems` over a prefix of `msgs` in which only message `i` has a `file_id`. */
  lemma {:induction false} OnlyPickItems(msgs: seq<Message>, cap: string, i: nat, k: nat)
    requires k <= |msgs| && i < |msgs| && FileIdPick(msgs[i]).Some?
    requires forall j :: 0 <= j < |msgs| && j != i ==> FileIdPick(msgs[j]).None?
    ensures k <= i ==> FileIdItems(msgs, cap, k) == []
    ensures k > i ==>
              FileIdItems(msgs, cap, k) ==
                [InputMedia(FileIdPick(msgs[i]).value.kind, FileId(FileIdPick(msgs[i]).value.fileId), ItemCaption(i, cap))]
  {
    if k > 0 {
      OnlyPickItems(msgs, cap, i, k - 1);
    }
  }

  // ---------------------------------------------------------------------
  // download_and_send_media_group
  // ---------------------------------------------------------------------

  /** Tier 3's loop makes one call per message, and every call it makes is a download. */
  lemma {:induction false} DownloadItemsTrace(o: Oracle, w: World, msgs: seq<Message>, cap: string, k: nat)
    requires k <= |msgs|
    ensures w.trace <= DownloadItems(o, w, msgs, cap, k).world.trace
    ensures |DownloadItems(o, w, msgs, cap, k).world.trace| == |w.trace| + k
    ensures forall i :: |w.trace| <= i < |DownloadItems(o, w, msgs, cap, k).world.trace| ==>
              DownloadItems(o, w, msgs, cap, k).world.trace[i].Api? &&
              DownloadItems(o, w, msgs, cap, k).world.trace[i].call.DownloadMedia?
  {
    if k > 0 {
      DownloadItemsTrace(o, w, msgs, cap, k - 1);
    }
  }

  /** Every file Tier 3's loop downloaded is on disk when the loop ends. */
  lemma {:induction false} DownloadItemsTemps(o: Oracle, w: World, msgs: seq<Message>, cap: string, k: nat)
    requires k <= |msgs|
    ensures DownloadItems(o, w, msgs, cap, k).world.temps == w.temps + Files(DownloadItems(o, w, msgs, cap, k).files)
  {
    if k > 0 {
      DownloadItemsTemps(o, w, msgs, cap, k - 1);
      var prev := DownloadItems(o, w, msgs, cap, k - 1).files;
      var files := DownloadItems(o, w, msgs, cap, k).files;
      if files != prev {
        FilesSnoc(prev, files[|files| - 1]);
        assert files == prev + [files[|files| - 1]];
      }
    }
  }

  lemma FilesSnoc(files: seq<string>, p: string)
    ensures Files(files + [p]) == Files(files) + {p}
  {
    var f := files + [p];
    forall x | x in Files(f)
      ensures x in Files(files) + {p}
    {
      var i :| 0 <= i < |f| && f[i] == x;
      if i < |files| {
        assert files[i] == x;
      }
    }
    forall x | x in Files(files)
      ensures x in Files(f)
    {
      var i :| 0 <= i < |files| && files[i] == x;
      assert f[i] == x;
    }
    assert f[|files|] == p;
  }

  /**
   * Tier 3 removes its downloaded files only on success: when it raises,
   * every downloaded file is still on disk and nothing was removed; when it
   * succeeds, none of them is left.
   */
  lemma DownloadGroupCleanup(o: Oracle, w: World, msgs: seq<Message>, lt: string)
    ensures var d := DownloadItems(o, w, msgs, FirstCaption(msgs) + lt, |msgs|);
            var r := DownloadGroup(o, w, msgs, lt);
            (r.raised ==> r.world.temps == w.temps + Files(d.files) &&
                          forall i :: |w.trace| <= i < |r.world.trace| ==> r.world.trace[i].Api?) &&
            (!r.raised ==> r.world.temps == w.temps - Files(d.files))
  {
    DownloadItemsTrace(o, w, msgs, FirstCaption(msgs) + lt, |msgs|);
    DownloadItemsTemps(o, w, msgs, FirstCaption(msgs) + lt, |msgs|);
  }

  // ---------------------------------------------------------------------
  // forward_media_group
  // ---------------------------------------------------------------------

  /** The number of pauses in a trace. */
  function SleepCount(t: seq<Event>): nat {
    multiset(t)[Sleep]
  }

  lemma SleepCountNoSleep(t: seq<Event>, t': seq<Event>)
    requires NoSleepAfter(t, t')
    ensures SleepCount(t') == SleepCount(t)
  {
    var u := t'[|t|..];
    assert t' == t + u;
  }

  /** Tier 4 pauses only after a counted success: at most `success_count` pauses. */
  lemma {:induction false} SleepsAtMostCount(o: Oracle, w: World, msgs: seq<Message>, link: string, k: nat)
    requires 0 < k <= |msgs|
    ensures SleepCount(OneByOne(o, w, msgs, link, k).world.trace) <= SleepCount(w.trace) + OneByOne(o, w, msgs, link, k).count
  {
    if k > 1 {
      SleepsAtMostCount(o, w, msgs, link, k - 1);
    }
    OneByOneRound(o, w, msgs, link, k);
  }

  /** Tier 4 never pauses after the last message: over n messages, at most n - 1 pauses. */
  lemma {:induction false} SleepsBelowLength(o: Oracle, w: World, msgs: seq<Message>, link: string, k: nat)
    requires 0 < k <= |msgs|
    ensures SleepCount(OneByOne(o, w, msgs, link, k).world.trace) <=
            SleepCount(w.trace) + (if k == |msgs| then k - 1 else k)
  {
    if k > 1 {
      SleepsBelowLength(o, w, msgs, link, k - 1);
    }
    OneByOneRound(o, w, msgs, link, k);
  }

  /** Round `k` of Tier 4 adds at most one success, and a pause only after a success that is not the last item's. */
  lemma OneByOneRound(o: Oracle, w: World, msgs: seq<Message>, link: string, k: nat)
    requires 0 < k <= |msgs|
    ensures OneByOne(o, w, msgs, link, k - 1).world.trace <= OneByOne(o, w, msgs, link, k).world.trace
    ensures OneByOne(o, w, msgs, link, k).count == OneByOne(o, w, msgs, link, k - 1).count ||
            OneByOne(o, w, msgs, link, k).count == OneByOne(o, w, msgs, link, k - 1).count + 1
    ensures SleepCount(OneByOne(o, w, msgs, link, k).world.trace) ==
            SleepCount(OneByOne(o, w, msgs, link, k - 1).world.trace) +
            (if OneByOne(o, w, msgs, link, k).count > OneByOne(o, w, msgs, link, k - 1).count && k < |msgs| then 1 else 0)
  {
    var prev := OneByOne(o, w, msgs, link, k - 1);
    var l := if k - 1 == 0 then link else "";
    var r := Forward(o, prev.world, msgs[k - 1], l);
    assert NoSleepAfter(prev.world.trace, r.world.trace) by {
      ForwardOutcome(o, prev.world, msgs[k - 1], l);
    }
    StepSleeps(prev, r, k - 1 < |msgs| - 1);
  }

  /** One Tier 4 round adds a pause only after a success, and only when asked to. */
  lemma StepSleeps(prev: Tally, r: Run, pause: bool)
    requires NoSleepAfter(prev.world.trace, r.world.trace)
    ensures var t := Step(prev, r, pause);
            prev.world.trace <= t.world.trace &&
            SleepCount(t.world.trace) == SleepCount(prev.world.trace) + (if !r.raised && pause then 1 else 0)
  {
    SleepCountNoSleep(prev.world.trace, r.world.trace);
  }

  /** Tier 4 passes the normalised link, which gives item 0 the same annotation as the original link. */
  lemma GroupLinkAnnotation(link: string)
    ensures LinkText(GroupLink(link)) == LinkText(link)
  {
    if link != "" {
      LinkTextOfNormalised(link);
    }
  }

  /** Tier 1 of an album: a successful batch copy (and link) is all that is sent. */
  lemma ForwardGroupStopsAfterCopy(o: Oracle, w: World, msgs: seq<Message>, link: string)
    requires msgs != []
    requires Succeeds(o, w, CopyMessages(msgs[0].chat, Ids(msgs)))
    requires LinkText(link) == "" || Succeeds(o, Issue(o, w, CopyMessages(msgs[0].chat, Ids(msgs))), SendText(LinkText(link)))
    ensures var r := ForwardGroup(o, w, msgs, link);
            var copy := CopyMessages(msgs[0].chat, Ids(msgs));
            var lt := LinkText(link);
            !r.raised && r.world.temps == w.temps &&
            r.world.trace == w.trace + [Api(copy, ReplyTo(o, w, copy))] +
                             (if lt == "" then [] else [Api(SendText(lt), ReplyTo(o, Issue(o, w, copy), SendText(lt)))])
  {
  }

  /**
   * `forward_media_group` lets an exception escape only when all four tiers
   * failed (Tier 4 delivered nothing) and the error notice itself could not
   * be sent.
   */
  lemma ForwardGroupRaises(o: Oracle, w: World, msgs: seq<Message>, link: string)
    ensures var lt := LinkText(link);
            var t1 := GroupCopy(o, w, msgs, lt);
            var t2 := GroupByFileId(o, t1.world, msgs, lt);
            var t3 := DownloadGroup(o, t2.world, msgs, lt);
            var t4 := OneByOne(o, t3.world, msgs, GroupLink(link), |msgs|);
            var r := ForwardGroup(o, w, msgs, link);
            r.raised ==> t1.raised && t2.raised && t3.raised && t4.count == 0 &&
                         r.world.trace != [] && Last(r.world.trace) == Api(SendNotice(GroupFailed), Raised)
  {
    var lt := LinkText(link);
    var t1 := GroupCopy(o, w, msgs, lt);
    var t2 := GroupByFileId(o, t1.world, msgs, lt);
    var t3 := DownloadGroup(o, t2.world, msgs, lt);
    var t4 := OneByOne(o, t3.world, msgs, GroupLink(link), |msgs|);
    if t1.raised && t2.raised && t3.raised && t4.count == 0 {
      assert ForwardGroup(o, w, msgs, link) == SendOrRaise(o, t4.world, SendNotice(GroupFailed));
    }
  }
}
