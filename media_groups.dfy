/**
 * `MessageExtractor.get_media_group_messages`: from a message link to the
 * messages to forward. A message that belongs to an album (a media group)
 * brings back every message of that album found within ten ids on either side
 * of it, in id order.
 */
module MediaGroups {
  import opened Wrappers
  import opened MessageLinks
  import opened Telegram

  /** How a `get_messages` call ended: its value, or the exception it raised. */
  datatype Fetch<T> = Got(value: T) | Failed

  /**
   * The user client's two `get_messages` forms: by one id, and by a list of
   * ids. A message that is missing, or not visible, is None.
   */
  datatype Client = Client(
    getOne: (ChatRef, nat) -> Fetch<Option<Message>>,
    getMany: (ChatRef, seq<int>) -> Fetch<seq<Option<Message>>>)

  /**
   * The outcome of a lookup: the `RuntimeError` raised when the client is not
   * initialised, the `None` returned when nothing can be forwarded, or a list.
   */
  datatype Lookup = NotInitialised | NoMessages | Messages(msgs: seq<Message>)

  /** The ids fetched around message `id`: `range(max(1, id - 10), id + 11)`. */
  function Window(id: nat): (w: seq<int>)
    ensures 1 <= |w| <= 21
    ensures w[0] == (if id > 11 then id - 10 else 1) && w[|w| - 1] == id + 10
    ensures forall i :: 0 <= i < |w| ==> w[i] == w[0] + i && w[i] >= 1
    ensures id >= 1 ==> w[id - w[0]] == id
  {
    var start := if id - 10 > 1 then id - 10 else 1;
    seq(id + 10 - start + 1, i => start + i)
  }

  /** A fetched entry that is a message of the album `g`. */
  predicate InGroup(m: Option<Message>, g: string) {
    m.Some? && m.value.groupId == g
  }

  /** The fetched messages of album `g`, in the order they were fetched. */
  function SameGroup(fetched: seq<Option<Message>>, g: string): (r: seq<Message>)
    ensures |r| <= |fetched|
    ensures forall m :: m in r <==> Some(m) in fetched && m.groupId == g
  {
    if fetched == [] then []
    else
      var init := fetched[..|fetched| - 1];
      var last := fetched[|fetched| - 1];
      assert fetched == init + [last];
      SameGroup(init, g) + (if InGroup(last, g) then [last.value] else [])
  }

  predicate SortedById(s: seq<Message>) {
    forall i, j :: 0 <= i < j < |s| ==> s[i].id <= s[j].id
  }

  /**
   * What the album lookup returns once both fetches succeeded: the fetched
   * messages of the target's album sorted by id, or the target alone when
   * none of them is kept.
   */
  predicate IsAlbumOf(r: seq<Message>, original: Message, fetched: seq<Option<Message>>) {
    var kept := SameGroup(fetched, original.groupId);
    if kept == [] then r == [original] else SortedById(r) && multiset(r) == multiset(kept)
  }

  /** `list.sort(key=lambda x: x.id)` on the kept messages, as an insertion sort. */
  method SortById(a: array<Message>)
    modifies a
    ensures SortedById(a[..])
    ensures multiset(a[..]) == multiset(old(a[..]))
  {
    var i := 0;
    while i < a.Length
      invariant 0 <= i <= a.Length
      invariant forall p, q :: 0 <= p < q < i ==> a[p].id <= a[q].id
      invariant multiset(a[..]) == multiset(old(a[..]))
    {
      InsertAt(a, i);
      i := i + 1;
    }
  }

  /** Moves `a[i]` left past every larger id, so that `a[..i + 1]` is sorted. */
  method InsertAt(a: array<Message>, i: nat)
    requires i < a.Length
    requires forall p, q :: 0 <= p < q < i ==> a[p].id <= a[q].id
    modifies a
    ensures forall p, q :: 0 <= p < q <= i ==> a[p].id <= a[q].id
    ensures multiset(a[..]) == multiset(old(a[..]))
  {
    var j := i;
    while j > 0 && a[j - 1].id > a[j].id
      invariant 0 <= j <= i
      invariant forall p, q :: 0 <= p < q <= i && q != j ==> a[p].id <= a[q].id
      invariant multiset(a[..]) == multiset(old(a[..]))
    {
      SwapDown(a, j);
      j := j - 1;
    }
  }

  /** Exchanges `a[k - 1]` and `a[k]`. */
  method SwapDown(a: array<Message>, k: nat)
    requires 0 < k < a.Length
    modifies a
    ensures a[k - 1] == old(a[k]) && a[k] == old(a[k - 1])
    ensures forall t :: 0 <= t < a.Length && t != k - 1 && t != k ==> a[t] == old(a[t])
    ensures multiset(a[..]) == multiset(old(a[..]))
  {
    a[k - 1], a[k] := a[k], a[k - 1];
  }

  /**
   * What the lookup gives for the parsed link `ref` with an initialised
   * client: nothing for a failed or empty fetch; the target alone when it is
   * not part of an album; otherwise its album as IsAlbumOf describes it.
   */
  predicate LooksUp(c: Client, ref: MessageRef, r: Lookup) {
    match c.getOne(ref.chat, ref.messageId)
    case Failed => r == NoMessages
    case Got(None) => r == NoMessages
    case Got(Some(original)) =>
      if original.groupId == "" then r == Messages([original])
      else
        match c.getMany(ref.chat, Window(ref.messageId))
        case Failed => r == NoMessages
        case Got(fetched) => r.Messages? && IsAlbumOf(r.msgs, original, fetched)
  }

  /** What the lookup of `link` gives with the client `client`, as `get_media_group_messages` decides it. */
  predicate Resolves(client: Option<Client>, link: string, r: Lookup) {
    match client
    case None => r == NotInitialised
    case Some(c) =>
      match ParseMessageLink(link)
      case None => r == NoMessages
      case Some(ref) => LooksUp(c, ref, r)
  }

  class MessageExtractor {
    /** The user client; None until `initialize` has run. */
    var client: Option<Client>

    constructor (client: Option<Client>)
      ensures this.client == client
    {
      this.client := client;
    }

    /** A link that does not parse gives nothing; otherwise the fetches decide. */
    method GetMediaGroupMessages(link: string) returns (r: Lookup)
      ensures client.None? <==> r == NotInitialised
      ensures client.Some? && ParseMessageLink(link).None? ==> r == NoMessages
      ensures client.Some? && ParseMessageLink(link).Some? ==> LooksUp(client.value, ParseMessageLink(link).value, r)
      ensures Resolves(client, link, r)
    {
      if client.None? {
        return NotInitialised;
      }
      var parsed := ParseMessageLink(link);
      if parsed.None? {
        return NoMessages;
      }
      r := FetchAlbum(client.value, parsed.value);
    }
  }

  /** The two fetches of `get_messages` and the album selection, for a parsed link. */
  method FetchAlbum(c: Client, ref: MessageRef) returns (r: Lookup)
    ensures LooksUp(c, ref, r)
  {
    var one := c.getOne(ref.chat, ref.messageId);
    if one.Failed? || one.value.None? {
      return NoMessages;
    }
    var original := one.value.value;
    if original.groupId == "" {
      return Messages([original]);
    }
    var many := c.getMany(ref.chat, Window(ref.messageId));
    if many.Failed? {
      return NoMessages;
    }
    var msgs := AlbumFrom(original, many.value);
    return Messages(msgs);
  }

  /** The filter loop: the fetched messages of album `g`, in fetch order. */
  method KeepSameGroup(fetched: seq<Option<Message>>, g: string) returns (kept: seq<Message>)
    ensures kept == SameGroup(fetched, g)
  {
    kept := [];
    for i := 0 to |fetched|
      invariant kept == SameGroup(fetched[..i], g)
    {
      assert fetched[..i + 1] == fetched[..i] + [fetched[i]];
      if fetched[i].Some? && fetched[i].value.groupId == g {
        kept := kept + [fetched[i].value];
      }
    }
    assert fetched[..|fetched|] == fetched;
  }

  /** Filter, sort by id, and fall back to the target when nothing is kept. */
  method AlbumFrom(original: Message, fetched: seq<Option<Message>>) returns (msgs: seq<Message>)
    ensures IsAlbumOf(msgs, original, fetched)
  {
    var kept := KeepSameGroup(fetched, original.groupId);
    var a := new Message[|kept|](i requires 0 <= i < |kept| => kept[i]);
    assert a[..] == kept;
    SortById(a);
    msgs := if a.Length == 0 then [original] else a[..];
  }

  /**
   * Every list the lookup returns is non-empty, holds only messages of the
   * target's album, in ascending id order, each either fetched or the target.
   */
  lemma AlbumShape(r: seq<Message>, original: Message, fetched: seq<Option<Message>>)
    requires IsAlbumOf(r, original, fetched)
    ensures r != [] && SortedById(r)
    ensures forall m :: m in r ==> m.groupId == original.groupId
    ensures forall m :: m in r ==> Some(m) in fetched || m == original
    ensures SameGroup(fetched, original.groupId) != [] ==> forall m :: m in r ==> Some(m) in fetched
  {
    var kept := SameGroup(fetched, original.groupId);
    if kept != [] {
      forall m | m in r
        ensures m in kept
      {
        assert m in multiset(r);
      }
      assert |r| == |multiset(r)| == |multiset(kept)| == |kept|;
    }
  }

  /** Whatever list the lookup returns is non-empty, sorted by id, and one album (or the lone target). */
  lemma LookupShape(c: Client, ref: MessageRef, r: Lookup)
    requires LooksUp(c, ref, r) && r.Messages?
    ensures r.msgs != [] && SortedById(r.msgs)
    ensures forall m :: m in r.msgs ==> m.groupId == r.msgs[0].groupId
  {
    match c.getOne(ref.chat, ref.messageId)
    case Got(Some(original)) =>
      if original.groupId != "" {
        var fetched := c.getMany(ref.chat, Window(ref.messageId)).value;
        AlbumShape(r.msgs, original, fetched);
      }
  }

  /** The lookup's outcome is decided by the fetches: it never reports a missing client, and a list is never empty. */
  lemma LookupTag(c: Client, ref: MessageRef, r: Lookup)
    requires LooksUp(c, ref, r)
    ensures !r.NotInitialised?
    ensures r.Messages? ==> r.msgs != []
    ensures r == NoMessages <==> LooksUp(c, ref, NoMessages)
  {
    if r.Messages? {
      LookupShape(c, ref, r);
    }
  }

  /** Only a missing client reports it; a list is never empty; and what the fetches give decides the outcome. */
  lemma ResolvesTag(client: Option<Client>, link: string, r: Lookup)
    requires Resolves(client, link, r)
    ensures r.Messages? ==> r.msgs != []
    ensures r.NotInitialised? <==> Resolves(client, link, NotInitialised)
    ensures r == NoMessages <==> Resolves(client, link, NoMessages)
  {
    if client.Some? && ParseMessageLink(link).Some? {
      LookupTag(client.value, ParseMessageLink(link).value, r);
    }
  }
}
