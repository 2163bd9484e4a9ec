/**
 * The Telegram side of the bot, reduced to values: the fields of a fetched
 * message that the forwarding code reads, the calls the bot makes to the Bot
 * API and to the user client, and the world those calls act on.
 *
 * Every collaborator call is answered by an oracle: given the number of
 * events already in the trace and the call, it says whether the call raised
 * or returned. A download that returns gives the path of the file it wrote;
 * the empty path stands for the falsy `None` that `download_media` may give.
 */
module Telegram {
  import opened Wrappers
  import MessageLinks

  /** A document attachment; the empty MIME type stands for a missing one. */
  datatype DocumentFile = DocumentFile(fileId: string, mimeType: string)

  /**
   * The fields of a fetched message that forwarding reads. An empty string
   * stands for a falsy text, caption or `media_group_id`; each attachment is
   * present (truthy) or absent, and carries its `file_id`.
   */
  datatype Message = Message(
    id: nat,
    chat: int,
    groupId: string,
    text: string,
    caption: string,
    photo: Option<string>,
    video: Option<string>,
    document: Option<DocumentFile>,
    audio: Option<string>,
    voice: Option<string>,
    sticker: Option<string>,
    animation: Option<string>,
    videoNote: Option<string>)

  /** The media kinds with a `send_*` method of their own. */
  datatype MediaKind = Photo | Video | Document | Audio | Voice | Sticker | Animation | VideoNote

  /** The four `InputMedia*` classes an album can be built from. */
  datatype InputKind = InputPhoto | InputVideo | InputDocument | InputAudio

  /** What a media parameter is given: a `file_id` on Telegram's servers, or a downloaded local path. */
  datatype Source = FileId(id: string) | LocalFile(path: string)

  datatype InputMedia = InputMedia(kind: InputKind, media: Source, caption: string)

  /**
   * The failure notices the bot sends to the user. The three error notices
   * also carry `str(e)`, which the model does not keep.
   */
  datatype Notice =
    | StickerFailed(linkText: string)
    | VideoNoteFailed(linkText: string)
    | UnsupportedMessage
    | ForwardFailed
    | MediaFailed
    | GroupFailed

  /** The collaborator calls. The destination chat is the same for all calls of one request and is not kept. */
  datatype Call =
    | CopyMessage(fromChat: int, messageId: nat)
    | CopyMessages(fromChat: int, messageIds: seq<nat>)
    | SendText(text: string)
    | SendMedia(kind: MediaKind, media: Source, caption: Option<string>)
    | SendMediaGroup(items: seq<InputMedia>)
    | DownloadMedia(fromChat: int, messageId: nat)
    | SendNotice(notice: Notice)

  /** How a call ended: it raised, or it returned (with the file path, for a download). */
  datatype Reply = Raised | Returned(path: string)

  datatype Event = Api(call: Call, reply: Reply) | Sleep | Removed(path: string)

  /** Everything forwarding changes: the calls made so far, and the temporary files that still exist. */
  datatype World = World(trace: seq<Event>, temps: set<string>)

  /** Answers the call made when `n` events are already in the trace. */
  type Oracle = (nat, Call) -> Reply

  /** The reply the oracle gives to `c` in world `w`. */
  function ReplyTo(o: Oracle, w: World, c: Call): Reply {
    o(|w.trace|, c)
  }

  /** Whether `c` returns in world `w`. */
  predicate Succeeds(o: Oracle, w: World, c: Call) {
    ReplyTo(o, w, c).Returned?
  }

  /** The file a download leaves on disk, if any. */
  function Downloaded(c: Call, r: Reply): Option<string> {
    if c.DownloadMedia? && r.Returned? && r.path != "" then Some(r.path) else None
  }

  /** Makes the call: it is appended to the trace, and a download with a path adds that file. */
  function Issue(o: Oracle, w: World, c: Call): (w': World)
    ensures w'.trace == w.trace + [Api(c, ReplyTo(o, w, c))]
    ensures w.temps <= w'.temps
    ensures !c.DownloadMedia? ==> w'.temps == w.temps
  {
    var r := ReplyTo(o, w, c);
    World(w.trace + [Api(c, r)],
          match Downloaded(c, r) case Some(p) => w.temps + {p} case None => w.temps)
  }

  /** `if os.path.exists(p): os.remove(p)`. */
  function RemoveIfLive(w: World, p: string): (w': World)
    ensures p !in w'.temps && w'.temps == w.temps - {p}
    ensures p in w.temps ==> w'.trace == w.trace + [Removed(p)]
    ensures p !in w.temps ==> w' == w
  {
    if p in w.temps then World(w.trace + [Removed(p)], w.temps - {p}) else w
  }

  /** The `send_*` method that delivers a lone album item of this class. */
  function MediaKindOf(k: InputKind): MediaKind {
    match k
    case InputPhoto => Photo
    case InputVideo => Video
    case InputDocument => Document
    case InputAudio => Audio
  }

  // ---------------------------------------------------------------------
  // The original-link annotation
  // ---------------------------------------------------------------------

  /** The link as sent: `https://` is put in front unless it already starts with `http`. */
  function NormaliseLink(link: string): (r: string)
    ensures MessageLinks.StartsWith(r, "http")
    ensures MessageLinks.StartsWith(link, "http") ==> r == link
    ensures !MessageLinks.StartsWith(link, "http") ==> r == "https://" + link
  {
    if MessageLinks.StartsWith(link, "http") then link
    else
      assert ("https://" + link)[..4] == "http";
      "https://" + link
  }

  const LinkLabel: string := "\n\n[原始消息]("

  /** The text appended after a forwarded message: empty when there is no link. */
  function LinkText(link: string): (r: string)
    ensures r == "" <==> link == ""
    ensures link != "" ==>
              && |r| > |LinkLabel| + |link| && r[..|LinkLabel|] == LinkLabel && r[|r| - 1] == ')'
              && MessageLinks.StartsWith(r[|LinkLabel|..], "http")
              && r[|r| - 1 - |link|..|r| - 1] == link
    ensures link != "" ==> r == LinkLabel + NormaliseLink(link) + ")"
  {
    if link == "" then ""
    else
      var u := NormaliseLink(link);
      var r := LinkLabel + u + ")";
      assert r[|LinkLabel|..][..4] == u[..4];
      assert r[|r| - 1 - |link|..|r| - 1] == u[|u| - |link|..];
      r
  }

  /** Normalising twice is normalising once. */
  lemma NormaliseLinkIdempotent(link: string)
    ensures NormaliseLink(NormaliseLink(link)) == NormaliseLink(link)
  {
  }

  /** A link already normalised gives the same annotation, so a second normalisation changes nothing visible. */
  lemma LinkTextOfNormalised(link: string)
    requires link != ""
    ensures NormaliseLink(link) != "" && LinkText(NormaliseLink(link)) == LinkText(link)
  {
    NormaliseLinkIdempotent(link);
  }
}
