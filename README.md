# Telegram message forwarder — a Dafny model

The bot takes a Telegram message link (`https://t.me/<handle>/<id>`,
`https://t.me/c/<channel>/<id>` or the same without the scheme) from a user,
looks the message up with a user-account client, and forwards it to the user
as a bot. A message that is part of an album (a media group) is forwarded
with the rest of its album. Forwarding tries several methods in turn. For a
single message it tries:

1. `copy_message`.
2. A send by `file_id`, chosen by the message's kind.
3. A download followed by a resend of the local file.

For an album it tries:

1. `copy_messages` of the whole album.
2. `send_media_group` built from `file_id`s.
3. A download of every file, then one `send_media_group` of the local files.
4. Each message forwarded on its own, with a pause between deliveries.

Each forwarded message is annotated with a link back to the original.

The model covers two parts of the bot:

- **The lookup** (`message_extractor.py`):
  - `parse_message_link`, in `message_links.dfy`. It strips the input and hand-codes the two regular expressions as prefix matchers. Each matcher is proved equal to a declarative description of the strings its pattern accepts. The module also models Python's `int()` and `str()` on the captured groups, and the `-100` channel rule.
  - `get_media_group_messages`, in `media_groups.dfy`. It is a class `MessageExtractor` whose optional client is a field. The two `get_messages` calls are a client value made of two functions. The code keeps the album's messages in a filter loop and sorts them in place; the sort is modelled by an insertion sort on an array.
- **The forwarding cascade** (`bot_handler.py`):
  - The world is the list of calls made so far (`trace`) plus the set of temporary files still on disk (`temps`), in `telegram.dfy`.
  - Every collaborator call is answered by an oracle. Given the position in the trace and the call, it says whether the call raised or returned. A download returns a path, and the empty path stands for a falsy result.
  - `cascade.dfy` states each forwarding operation as a function from the world before it to the world after it, plus whether an exception escaped.
  - `bot_handler.dfy` holds the class `Bot`. Its methods are written the way the source writes them, one call at a time, with loops and early returns. Each method is proved to end in exactly the state the matching function gives.
  - `cascade_properties.dfy` proves what those functions guarantee.

Several behaviours of the code are modelled as written and stated as lemmas:

- **Lost caption.** The album caption goes to the item built from `messages[0]`. When that message yields no item, the caption and the link are lost (`FileIdCaptions`, `DownloadCaptions`).
- **Duplicate delivery.** A copy that succeeds, followed by a link message that fails, falls through to the next method, so the content is delivered twice (`DuplicateDelivery`).
- **Single-item album.** A Tier 2 album with exactly one usable item re-forwards `messages[0]` without the link. It does so even when the item came from another message (`SingleItemForwardsFirst`).
- **Link parsing.** The handle pattern is tried first. So `t.me/c/123/55` is read as the username `c` with message id 123. The `/c/` pattern is reached only for a negative channel id (`ExamplePrivateLinkReadAsUsername`, `PrivateNeedsNegativeId`, `ExampleNegativePrivateLink`).
- **Exceptions from `forward_original_message`.** It catches every exception and reports it with a notice. The model keeps the one way an exception still escapes: the notice itself fails (`ForwardOutcome`).

## Model

| member | source | states |
|---|---|---|
| MessageLinks.Strip | message_extractor.py:47 | the stripped link is an infix of the input with only white space (as `str.isspace()` defines it) before and after it, and it neither begins nor ends with white space |
| MessageLinks.StripIdempotent | message_extractor.py:47 | stripping twice is stripping once |
| MessageLinks.StripSurrounded | message_extractor.py:47 | stripping white space added around a text gives what stripping the text gives |
| MessageLinks.WordSpan | message_extractor.py:52 | the greedy `[a-zA-Z0-9_]+` run: all word characters, and the next character (if any) is not one |
| MessageLinks.DigitSpan | message_extractor.py:52-54 | the greedy `\d+` run: all digits, and the next character (if any) is not a digit |
| MessageLinks.SchemeCases | message_extractor.py:52-54 | the optional `https?://` consumes 8 characters exactly for `https://`, 7 exactly for `http://`, none before `t` |
| MessageLinks.MatchHandleSpec | message_extractor.py:52 | the pattern-1 matcher returns groups (ident, digits) iff the stripped link begins with an optional scheme, `t.me/`, a word identifier, `/`, and a maximal digit run |
| MessageLinks.MatchPrivateSpec | message_extractor.py:54 | the pattern-2 matcher returns groups iff the link begins with an optional scheme, `t.me/c/`, an optionally negative digit run, `/`, and a maximal digit run |
| MessageLinks.FirstMatch | message_extractor.py:57-60 | pattern 1 is tried before pattern 2: its match is returned whenever there is one, and pattern 2's match otherwise; what it returns matches one of the two declarative shapes, with a non-empty digit run as message id; nothing is returned only when both matchers fail |
| MessageLinks.ChatOf | message_extractor.py:63-79 | the identifier is a username exactly when `int()` rejects it, and then it is unchanged; a numeric id is kept as is without `/c/` in the link, and reads as `-100...` with it |
| MessageLinks.ParseMessageLink | message_extractor.py:38-81 | `None` exactly when no pattern matches the stripped link; a username is a non-empty word identifier; a channel id from a link containing `/c/` reads as `-100...` |
| MessageLinks.UsernameGroup | message_extractor.py:54-79 | every identifier pattern 2 captures is accepted by `int()`, so a username always comes from pattern 1 |
| MessageLinks.ParseIgnoresSurroundingSpace | message_extractor.py:47 | white space added before or after a link never changes the parse |
| MessageLinks.ParseNoneIff | message_extractor.py:57-81 | `None` exactly when neither pattern matches at the start of the stripped link |
| MessageLinks.ParseUsernameLink | message_extractor.py:73-79 | an identifier `int()` rejects is returned unchanged as a username, with `int(message_id)` |
| MessageLinks.ParseNumericHandleLink | message_extractor.py:63-72 | a numeric identifier in a link without `/c/` is returned as that integer, untransformed |
| MessageLinks.ParseNumericHandleWithC | message_extractor.py:63-72 | with `/c/` anywhere in the link, the id is kept if its decimal form starts with `-100`, and otherwise becomes `-100` followed by the digits of its absolute value |
| MessageLinks.PyInt | message_extractor.py:63-64 | `int()` of a digit run is its value, of `-` and a digit run the negated value, and any character other than a digit, `_` or `-` makes it a `ValueError` |
| MessageLinks.DecimalValue | message_extractor.py:66 | reading back the decimal form `str()` writes gives the number |
| MessageLinks.ValueDecimal | message_extractor.py:66 | writing back a digit run without leading zero gives the same digits |
| MessageLinks.ChannelPrefixedForm | message_extractor.py:67 | `int(f"-100{abs(chat_id)}")` is negative and its decimal form is `-100` followed by the digits of `abs(chat_id)` |
| MessageLinks.ChannelPrefixedValue | message_extractor.py:67 | numerically, the prefixed id is `-(100 * 10^k + abs(v))`, where `abs(v)` has `k` digits |
| MessageLinks.NormaliseChannel | message_extractor.py:66-67 | the `/c/` rule always yields an id whose decimal form starts with `-100`: an id already in that form is kept, any other becomes `-100` followed by the digits of its absolute value |
| MessageLinks.NormaliseChannelIdempotent | message_extractor.py:66-67 | applying the `/c/` rule twice is applying it once |
| MessageLinks.PrivateNeedsNegativeId | message_extractor.py:52-60 | a `/c/` link whose id is not negative already matches pattern 1, with handle `c` and the channel id as message id |
| MessageLinks.HandleFailsOnNegativeId | message_extractor.py:52-60 | pattern 1 fails on a `/c/` link with a negative id, and such a link contains `/c/` |
| MessageLinks.ParseNegativePrivateLink | message_extractor.py:54-72 | a `/c/` link with a negative id is parsed by pattern 2 and gets the `-100` rule |
| LinkExamples.ExamplePrivateLinkReadAsUsername | message_extractor.py:52-79 | `t.me/c/123/55` parses as username `c`, message id 123 |
| LinkExamples.ExampleNegativePrivateLink | message_extractor.py:54-72 | `https://t.me/c/-5/7` parses as channel id -1005, message id 7 |
| MediaGroups.Window | message_extractor.py:120-125 | the fetched ids run contiguously from `max(1, id - 10)` to `id + 10`: between 1 and 21 ids, all at least 1, and including `id` whenever `id` is at least 1 |
| MediaGroups.SameGroup | message_extractor.py:128-133 | the kept messages are exactly the fetched, present messages of the target's album, no more of them than were fetched |
| MediaGroups.KeepSameGroup | message_extractor.py:128-133 | the filter loop keeps the same messages as SameGroup, in fetch order |
| MediaGroups.SortById | message_extractor.py:136 | the in-place sort leaves the array sorted by id and a permutation of what it was |
| MediaGroups.AlbumFrom | message_extractor.py:128-141 | the result is the kept messages sorted by id (a permutation of them), or `[original]` when none is kept |
| MediaGroups.AlbumShape | message_extractor.py:129-141 | an album result is non-empty, sorted by id, all of the target's album, each fetched or the target itself |
| MediaGroups.FetchAlbum | message_extractor.py:94-148 | a failed or empty target fetch gives nothing; a target outside any album gives `[original]`; a failed window fetch gives nothing; otherwise the album |
| MediaGroups.MessageExtractor.GetMediaGroupMessages | message_extractor.py:83-148 | a missing client raises, and only a missing client does; an unparsable link gives nothing; otherwise the fetches decide, as LooksUp (together: Resolves) |
| MediaGroups.LookupShape | message_extractor.py:83-148 | any list the lookup returns is non-empty, sorted by id, and from one album |
| MediaGroups.LookupTag | message_extractor.py:94-148 | the lookup never reports a missing client, never returns an empty list, and whether it gives nothing is decided by the fetches alone |
| MediaGroups.ResolvesTag | message_extractor.py:83-148 | over the whole lookup: a list is never empty, and which of the three outcomes occurs is decided by the client, the link and the fetches |
| Telegram.NormaliseLink | bot_handler.py:195-196 | a link starting with `http` is kept as is; any other gets exactly `https://` in front |
| Telegram.NormaliseLinkIdempotent | bot_handler.py:195-196 | normalising twice is normalising once |
| Telegram.LinkText | bot_handler.py:192-197 | the annotation is empty iff there is no link; otherwise it is the label, the normalised link (which starts with `http` and ends with the given link), and `)` |
| Telegram.LinkTextOfNormalised | bot_handler.py:584-589 | an already normalised link gives the same annotation |
| Telegram.RemoveIfLive | bot_handler.py:439-442 | removing a path deletes it from the live files and records the removal only when it existed |
| Cascade.FirstCaption | bot_handler.py:622-626 | `first_caption` is empty iff no message has a caption, and otherwise is the caption of the first message that has one |
| Cascade.Ids | bot_handler.py:593 | the batch copy asks for the ids of the messages, in order |
| Cascade.DownloadItems | bot_handler.py:467-523 | Tier 3's loop never builds more items than it downloaded files, nor more files than messages |
| Cascade.Cleanup | bot_handler.py:564-572 | the clean-up loop leaves none of the downloaded files on disk |
| Cascade.OneByOne | bot_handler.py:695-711 | Tier 4's `success_count` never exceeds the number of messages |
| Cascade.Step | bot_handler.py:697-710 | a Tier 4 round counts one success exactly when the forward raised nothing |
| Cascade.FileIdItems | bot_handler.py:628-665 | Tier 2 builds at most one item per message, each sent by `file_id` |
| BotHandler.Bot.Request | bot_handler.py:203-207 | a call is appended to the trace with the oracle's answer; a download that returns a path adds that file |
| BotHandler.Bot.Remove | bot_handler.py:439-442 | the file is removed only if it still exists |
| BotHandler.Bot.Pause | bot_handler.py:705-707 | the pause is recorded and nothing else changes |
| BotHandler.Bot.ForwardOriginalMessage | bot_handler.py:184-379 | the method ends in exactly the world and exception outcome of Forward |
| BotHandler.Bot.SendByKind | bot_handler.py:224-372 | the per-kind dispatch ends as ByKind: the first present kind in source order, a caption of `(caption or "") + link_text`, a download fallback for captioned kinds, a notice for sticker and video note |
| BotHandler.Bot.DownloadAndResendMedia | bot_handler.py:381-451 | the method ends as DownloadResend |
| BotHandler.Bot.DownloadAndSendMediaGroup | bot_handler.py:453-576 | the download loop, the send and the clean-up loop end as DownloadGroup |
| BotHandler.Bot.DownloadRound | bot_handler.py:467-523 | one download round advances Tier 3's loop state by one message |
| BotHandler.Bot.CopyMediaGroup | bot_handler.py:591-615 | Tier 1 of an album ends as GroupCopy |
| BotHandler.Bot.SendMediaGroupByFileId | bot_handler.py:617-682 | Tier 2 of an album ends as GroupByFileId: more than one item is an album send, one item re-forwards `messages[0]`, none falls through |
| BotHandler.Bot.ForwardOneByOne | bot_handler.py:693-711 | Tier 4's loop ends in the world and `success_count` of OneByOne |
| BotHandler.Bot.ForwardRound | bot_handler.py:697-710 | one Tier 4 round advances OneByOne by one message |
| BotHandler.Bot.ForwardMediaGroup | bot_handler.py:578-722 | the four tiers, stopping at the first that delivers, end as ForwardGroup |
| BotHandler.Bot.HandleMessageLink | bot_handler.py:111-173 | the usage reply is given exactly for text without `t.me`; otherwise the lookup runs, and nothing is forwarded exactly when the lookup of the stripped text reports a missing client or nothing; forwarded messages are exactly the list the lookup returned, several sent as an album and one alone, with the stripped text as link |
| BotHandler.Bot.ForwardFound | bot_handler.py:138-160 | a non-empty list is forwarded (as ForwardGroup when it has several messages, as Forward when it has one); anything else forwards nothing and changes nothing |
| BotHandler.FirstCaptionOf | bot_handler.py:622-626 | the caption loop returns FirstCaption |
| BotHandler.FileIdMediaList | bot_handler.py:628-662 | Tier 2's loop builds exactly the items FileIdItems describes |
| CascadeProperties.DownloadResendOutcome | bot_handler.py:381-451 | the resend makes a call and no pause; it raises only when its own failure notice raised, and otherwise ends with a returned call or the file's removal |
| CascadeProperties.DownloadResendTemps | bot_handler.py:387-444 | the downloaded file is removed after a successful resend and left on disk after a failed one; with no download, the files are unchanged |
| CascadeProperties.ByKindOutcome | bot_handler.py:224-372 | the per-kind dispatch makes a call and no pause, and raises only at a call that raised |
| CascadeProperties.GuardedOutcome | bot_handler.py:374-379 | behind the outer `except`, an exception escapes iff the error notice itself raised |
| CascadeProperties.ForwardOutcome | bot_handler.py:184-379 | `forward_original_message` raises iff its last call was the error notice and that notice raised |
| CascadeProperties.ForwardStopsAfterCopy | bot_handler.py:201-218 | a successful copy (and link) is all that is sent: exactly those calls, no exception, files unchanged |
| CascadeProperties.DuplicateDelivery | bot_handler.py:201-232 | a successful copy, a failed link send and a successful text send deliver the text twice without raising |
| CascadeProperties.FileIdCaptions | bot_handler.py:628-662 | in Tier 2 at most the first item carries a caption; it is the full caption when `messages[0]` gives an item, and otherwise every caption is empty |
| CascadeProperties.DownloadCaptions | bot_handler.py:467-516 | the same holds in Tier 3, where `messages[0]` must also download to a file |
| CascadeProperties.ClassificationAgreement | bot_handler.py:480-516 | Tier 3 classifies as Tier 2 (633-662) except for a document that is neither image nor video, which Tier 3 keeps as a document |
| CascadeProperties.DocumentsKept | bot_handler.py:490-506 | Tier 3 never skips a document; Tier 2 keeps one iff its MIME type starts with `image/` or `video/` |
| CascadeProperties.SingleItemForwardsFirst | bot_handler.py:628-677 | in an album of any size where exactly one message has a `file_id`, Tier 2 builds that message's item alone, captioned only if it is `messages[0]`, and re-forwards `messages[0]` without link |
| CascadeProperties.DownloadItemsTrace | bot_handler.py:467-523 | Tier 3's loop extends the trace by one download per message and nothing else |
| CascadeProperties.DownloadItemsTemps | bot_handler.py:467-523 | after Tier 3's loop, every downloaded file is on disk |
| CascadeProperties.DownloadGroupCleanup | bot_handler.py:526-576 | when Tier 3 raises, every downloaded file stays on disk and nothing was removed; when it succeeds, none stays |
| CascadeProperties.SleepsAtMostCount | bot_handler.py:697-707 | Tier 4 pauses at most `success_count` times |
| CascadeProperties.SleepsBelowLength | bot_handler.py:697-707 | Tier 4 pauses at most n - 1 times over n messages |
| CascadeProperties.OneByOneRound | bot_handler.py:697-710 | each Tier 4 round extends the trace, adds at most one success, and adds a pause only after a success that is not the last |
| CascadeProperties.StepSleeps | bot_handler.py:705-707 | a round adds a pause only after a success, and only when it is asked to |
| CascadeProperties.GroupLinkAnnotation | bot_handler.py:587-589 | item 0 of Tier 4 gets the same annotation from the normalised link as from the original one |
| CascadeProperties.ForwardGroupStopsAfterCopy | bot_handler.py:591-612 | a successful batch copy (and link) is all an album forward sends |
| CascadeProperties.ForwardGroupRaises | bot_handler.py:712-722 | an album forward raises only when every tier failed, Tier 4 delivered nothing, and the error notice itself raised |

## Left out

- The Bot API and the user client are network I/O. Each call is an oracle answer (raised, or returned with a path), and the model keeps no message content beyond the fields forwarding reads.
- The destination chat id is the same for every call of one request, so it is not kept in the trace.
- The text of `str(e)` in the error notices is not kept.
- `asyncio.sleep(0.5)` is a `Sleep` event; its duration is not modelled.
- `os.path.exists` and `os.remove` act on a set of live temporary paths, not on a file system.
- Logging, the `/start`, `/help` and `/status` handlers, and the edits and deletions of the processing message are not modelled.
- Client initialisation, `is_connected` and `close` are not modelled. `HandleMessageLink` is given an extractor whose client may be missing.
- main.py and config.py are not part of this model.
- `\d` is restricted to ASCII digits. Python's `int()` underscores between digits are modelled.
- PyInt: the limit on the number of digits that recent CPython `int()` accepts (a `ValueError` beyond 4300 digits) is not modelled; `PyInt` and `DigitsValue` read digit runs of any length.
- The kept messages are sorted by an insertion sort. The sort's stability, which Python's `list.sort` guarantees, is not proved.
- `valid_messages` drops `None` entries, but the filter before it can keep none. It is therefore folded into the filter.
- A `message_id` of 0 is allowed, because the code does not reject it.
- `download_media` on a missing client would raise an `AttributeError`. The download tiers assume the client the lookup used.
- HandleMessageLink: the handler calls `initialize()` whenever the client is missing or disconnected (bot_handler.py:132-133), so the extractor's `RuntimeError` is not reached from it. A missing client here stands for an `initialize()` that failed. That path ends in the error reply of bot_handler.py:174-181 with nothing forwarded, which is `NothingFound` with the world unchanged, the same as a `None` lookup. The reply texts are not modelled.
- ForwardGroupRaises: states only that an escaped exception implies every tier failed. The converse follows from the definition of `ForwardGroup` and is not restated.
