# song-link-bot: a verified model of its core

song-link-bot is a chat bot. It watches one "music channel" per guild, reads
Spotify track links out of the messages posted there and adds the tracks to
that guild's Spotify playlist. Moderators steer it with four commands:
- `fill` reads the channel's history and adds every linked track;
- `set` chooses the music channel, the logging channel or the command prefix;
- `reset` empties the playlist;
- `playlist` only replies.

The repository holds two generations of the same bot:
- the older one is index.js, spotify.js and playlist-cache.js;
- the newer one is src/song-link-reader.js, src/utils/spotify-api.js and
  src/utils/playlist-cache.js.

This project models both in Dafny and proves properties of the model.

- `Wrappers`: Option stands for `null`/`undefined`; Result stands for a
  thrown error or a rejected promise.
- `Tracks` holds the id-to-URI membership map of a playlist
  (`spotify:track:<id>`). It also defines `key in map` on a plain object,
  which finds the inherited `Object.prototype` names as well.
- `Recency` is the abstract LRU order of a cache: promote on a hit, insert
  with eviction of the least recent entry.
- `LruCache.PlaylistCache` is the doubly linked LRU cache of
  src/utils/playlist-cache.js as a class. Its fields are `cache`, `head`,
  `tail`, `size` and `maxSize`, with a ghost recency order. Each method is
  proved to keep the list linked and to follow `Recency`.
- `LegacyLru.LegacyCache` is the older cache of playlist-cache.js. It has
  the same structure, but it keeps its playlists as properties of the cache
  object itself, so the cache's own fields and inherited names answer `in`.
  The newer cache keeps them in a plain object, where inherited names
  answer `in` as well.
- `CacheAsWritten` runs the source's pointer code over an explicit heap. It
  supports the findings below.
- `Paging` reads a playlist 100 tracks at a time until a page comes back
  empty (`getAllIds`).
- `Batching` sends a list in requests of at most 100 entries. It also
  defines the count the source reports.
- `Dedup` is the duplicate filter of `removeDuplicates`, proved equal to an
  independent first-occurrence definition.
- `SpotifyLegacy` covers the request logic of spotify.js.
- `SpotifyApi.Service` covers the request logic of
  src/utils/spotify-api.js, which keeps a five-entry `PlaylistCache`.
- `JsText` defines the string built-ins the routing uses: `trim`,
  `split(/ +/)`, ASCII `toLowerCase`, `parseInt`, `startsWith`, `endsWith`
  and `indexOf`.
- `LinkScan` is the global match of the track-link pattern and the clean-up
  of each match. The pattern's two unescaped dots match any character but a
  line terminator.
- `Settings` holds the configuration object: `valid_prefixes` and
  `server_list`, with its three-hour cooldowns.
- `FillCommand`, `SetCommand` and `ResetCommand` model commands/fill.js,
  commands/set.js and commands/reset.js.
- `SongLinkReader` models `parseMessage` and the guild event handlers of
  src/song-link-reader.js.
- `IndexHandlers` models the handlers of index.js.

The network is an input to the model:
- the playlist the service holds is a page function (`Pages`);
- whether each add or delete request succeeds is a function of the request
  index (`accept`);
- a channel's history is a sequence of messages, newest first;
- the clock is a parameter `now`.

## Model

| member | source | states |
|---|---|---|
| Tracks.Uris | spotify.js:224 | the URI list has one canonical `spotify:track:` URI per id, in order |
| Tracks.UriInjective | spotify.js:157 | two ids with the same URI are the same id |
| Tracks.UriMapWellFormed | spotify.js:155-158 | the map built from a track list maps every id to its own URI, and its keys are exactly the ids listed |
| Tracks.UriMapSnoc | spotify.js:157 | writing `idDict[id]` for one more track extends the map by exactly that entry |
| Tracks.UpdatePreservesWellFormed | src/utils/playlist-cache.js:96 | `updateSong`'s write keeps every key mapped to its own URI |
| Tracks.UrisSnoc | spotify.js:224 | one more id adds its URI at the end |
| Tracks.ObjectValues | spotify.js:408 | `Object.values` yields each URI of the map exactly once, and nothing else |
| Recency.InsertFull | src/utils/playlist-cache.js:80-84 | inserting into a full order puts the key in front and drops the last (least recent) key |
| Recency.WithoutMembers | src/utils/playlist-cache.js:103-113 | removing a key leaves exactly the other keys |
| Recency.WithoutAbsent | src/utils/playlist-cache.js:103-113 | removing a key that is not present changes nothing |
| Recency.WithoutAt | src/utils/playlist-cache.js:103-113 | in a duplicate-free order, removing the key at position k removes exactly that position |
| Recency.WithoutDistinct | src/utils/playlist-cache.js:103-113 | removal keeps the order duplicate-free and shortens it by one |
| Recency.PromoteHead | src/utils/playlist-cache.js:42-43 | a hit on the most recent key changes nothing |
| Recency.PromoteKeepsKeys | src/utils/playlist-cache.js:42-55 | a hit moves the key to the front and keeps the same keys, the same length and no duplicates |
| Recency.PromoteIsReinsert | src/utils/playlist-cache.js:50-54 | deleting a key and adding it again is promoting it, and re-adding never evicts |
| Recency.InsertBounded | src/utils/playlist-cache.js:65-88 | an insertion keeps the order within capacity and free of duplicates, with the new key in front; when full, exactly the least recent key is lost |
| Recency.LruExample | src/utils/playlist-cache.js:35-88 | with capacity 2: adding a, b, c keeps [c, b]; a hit on b gives [b, c]; adding d evicts c |
| LruCache.ChainsCoverIndex | src/utils/playlist-cache.js:16-19 | following `next` from the head, and `prev` from the tail, visits every indexed playlist in recency order and its reverse; the ends have null links |
| LruCache.LinkedIndexed | src/utils/playlist-cache.js:16-19 | a linked list never repeats a node, and the index holds exactly the listed playlists |
| LruCache.LinkedPrepend | src/utils/playlist-cache.js:66-78 | putting a new node in front keeps the list linked, with the new node as head |
| LruCache.LinkedDropLast | src/utils/playlist-cache.js:81-84 | dropping the tail and null-ing its predecessor's `next` leaves a linked list one shorter |
| LruCache.EvictAfterPrepend | src/utils/playlist-cache.js:80-84 | adding to a full cache evicts exactly the least recently used playlist and keeps the list linked |
| LruCache.LinkedSplice | src/utils/playlist-cache.js:104-112 | splicing a node out by relinking its neighbours keeps the list linked |
| LruCache.SpliceEffect | src/utils/playlist-cache.js:103-114 | splicing keeps every other playlist's tracks and leaves the order without the deleted id |
| LruCache.Position | src/utils/playlist-cache.js:43-46 | a cached playlist has a position in the order, and its `prev`/`next` are null exactly at the ends |
| LruCache.DeleteKeeps | src/utils/playlist-cache.js:103-114 | deletion keeps the cache invariant: size equals the number of entries, within capacity, linked |
| LruCache.PlaylistCache.constructor | src/utils/playlist-cache.js:26-28 | a new cache is empty with the given capacity |
| LruCache.PlaylistCache.Get | src/utils/playlist-cache.js:35-58 | a miss returns null and changes nothing; a hit returns the playlist's tracks, moves it to the front and keeps every entry |
| LruCache.PlaylistCache.Add | src/utils/playlist-cache.js:65-88 | the new playlist becomes the head; the order is `Recency.Insert`; below capacity the size grows by one, at capacity the least recent playlist is evicted |
| LruCache.PlaylistCache.UpdateSong | src/utils/playlist-cache.js:95-97 | only that playlist's map gains `track -> spotify:track:track`; order, size, ends and other playlists are unchanged |
| LruCache.PlaylistCache.DeletePlaylist | src/utils/playlist-cache.js:103-114 | the playlist leaves the index and the order, the size drops by one, and the others keep their tracks |
| LegacyLru.ClashExamples | playlist-cache.js:25 | `size`, `head` and `toString` answer `in this` although no playlist has those ids; an ordinary playlist id does not |
| LegacyLru.LegacyCache.constructor | playlist-cache.js:12-18 | a new cache is empty with the given capacity |
| LegacyLru.LegacyCache.Get | playlist-cache.js:24-47 | an id that clashes with a field or an inherited name reads as a hit on a non-playlist; a miss changes nothing; a hit returns the tracks and promotes the playlist |
| LegacyLru.LegacyCache.Add | playlist-cache.js:54-74 | as the newer cache's `add`: head, `Recency.Insert`, growth or eviction |
| CacheAsWritten.SecondAddThrows | src/utils/playlist-cache.js:65-88 | see Findings: the second `add` into a new cache throws |
| CacheAsWritten.NonHeadGetThrows | src/utils/playlist-cache.js:43-55 | see Findings: a hit on a non-head entry throws after removing it |
| CacheAsWritten.DeleteHeadDangles | src/utils/playlist-cache.js:103-114 | see Findings: deleting the head leaves `head` at the deleted node |
| CacheAsWritten.LegacyFirstAddThrows | playlist-cache.js:63 | see Findings: the first legacy `add` dereferences the null head |
| CacheAsWritten.LegacyGetStrandsTail | playlist-cache.js:32-43 | see Findings: a legacy hit on the tail leaves `tail` at the removed node, and the next `add` throws |
| Paging.PrependJoin | spotify.js:154-161 | collecting pages one after another is concatenation |
| Paging.FetchAllIds | spotify.js:150-164 | the loop returns the map of every track on the pages before the first empty page; a rejected page is the error |
| Paging.CrawlServing | spotify.js:152-161 | reading a served playlist from page k on yields every track from offset 100k on |
| Paging.AllIdsServing | spotify.js:150-164 | `getAllIds` on a playlist the service holds returns exactly that playlist's membership map |
| Batching.JsSlice | spotify.js:369 | a slice is never longer than its list |
| Batching.BatchIsBlock | spotify.js:358-370 | request i holds entries 100i up to 100i+99, never none and never more than 100 |
| Batching.FlattenPrefix | spotify.js:358-370 | the first k requests together are the first min(100k, n) entries |
| Batching.BatchesCover | spotify.js:358-370 | the requests are ceil(n/100) consecutive, disjoint blocks of 1 to 100 entries that together are the whole list, and there are none for an empty list |
| Batching.SendBatches | src/utils/spotify-api.js:280-302 | success iff every request is accepted; on success every entry was sent once and the count is the number sent; otherwise the first rejected request is the error and the requests before it were sent |
| Batching.UploadNew | src/utils/spotify-api.js:274-311 | nothing new is the all-duplicates error with no request; otherwise success iff every batch is accepted, every URI sent once, and a rejected batch is the error after all earlier ones were accepted |
| Batching.DeleteTracks | src/utils/spotify-api.js:327-362 | the map's URIs go out in delete batches; success iff every batch is accepted, and then each URI was sent exactly once; a rejected batch is the error after all earlier ones were accepted |
| Batching.ClearedPrefix | spotify.js:405-440 | the first k+1 delete batches hold distinct URIs of the playlist, min(100(k+1), n) of them, each batch between 1 and 100 |
| Batching.ReportedFull | src/utils/spotify-api.js:296-302 | each full request of 100 is counted as 99 |
| Batching.ReportedCountValue | src/utils/spotify-api.js:296-302 | the count the source reports for n tracks is n - floor(n/100) |
| Batching.ReportedCountShortfall | src/utils/spotify-api.js:296-302 | 100 tracks are reported as 99, 250 as 248 |
| Dedup.NewIdsAreFirstNew | spotify.js:218-230 | the loop keeps exactly the first occurrence of each id the playlist lacks, in input order |
| Dedup.WalkSplits | spotify.js:221-227 | walking the rest of the input from any point of the loop keeps exactly the first new occurrences of the whole input |
| Dedup.NewIdsMembers | spotify.js:218-230 | an id is kept iff it was requested and the playlist's map does not answer `in` for it; none is kept twice |
| SpotifyLegacy.GetAllIds | spotify.js:150-164 | the result is the map of the paged crawl, and it is well formed |
| SpotifyLegacy.InPlaylist | spotify.js:207-210 | the answer is `in` on the freshly read map; a read error propagates |
| SpotifyLegacy.InPlaylistServing | spotify.js:207-210 | on a held playlist, `inPlaylist` is true exactly for its tracks and for inherited object names |
| SpotifyLegacy.RemoveDuplicates | spotify.js:218-230 | the URIs of the first new occurrences of the requested ids |
| SpotifyLegacy.AddSong | spotify.js:306-340 | a track already present is refused before any request; otherwise exactly one request with its URI is sent, its outcome is the result |
| SpotifyLegacy.BatchAddSongs | spotify.js:348-393 | the new URIs go out in batches of at most 100; nothing new is an error with no request sent |
| SpotifyLegacy.ClearPlaylist | spotify.js:400-443 | every URI of the playlist goes out in delete batches of at most 100; success iff all were accepted; on a rejected batch every earlier batch was accepted and exactly the batches up to the rejected one were sent |
| SpotifyApi.Service.constructor | src/utils/spotify-api.js:13 | the module starts with an empty cache |
| SpotifyApi.Service.GetAllIds | src/utils/spotify-api.js:88-108 | a cached playlist is returned from the cache and promoted, with no request; a miss crawls the playlist and caches it as the most recent entry, evicting the least recent one when five are cached and leaving the other entries as they were; a failed read changes nothing |
| SpotifyApi.Service.InPlaylist | src/utils/spotify-api.js:151-154 | `in` on the map `getAllIds` returns; the cache's order and entries are exactly those `getAllIds` leaves |
| SpotifyApi.Service.RemoveDuplicates | src/utils/spotify-api.js:162-175 | the URIs of the first new occurrences; the order is that of the read, and the playlist's cached map gains exactly those ids while every other entry keeps its map |
| SpotifyApi.Service.RecordNew | src/utils/spotify-api.js:166-172 | the loop over requested ids returns the kept URIs and writes them into the cached map; no other entry and not the order changes |
| SpotifyApi.Service.AddSong | src/utils/spotify-api.js:227-261 | a duplicate is refused before any request; otherwise one request with the track's URI is sent; the cache is left as the read left it |
| SpotifyApi.Service.BatchAddSongs | src/utils/spotify-api.js:269-315 | the cached map records the new ids before the upload, other entries unchanged; the new URIs go out in batches of at most 100; nothing new is an error |
| SpotifyApi.Service.ClearPlaylist | src/utils/spotify-api.js:322-366 | every URI goes out in delete batches; on success the playlist leaves the cache's order and index and the cache holds one entry fewer; on a rejected batch the earlier batches were accepted and sent, and the cache is as the read left it |
| JsText.TrimStartBounds | src/song-link-reader.js:196 | `trimStart` removes exactly a white-space prefix |
| JsText.TrimEndBounds | src/song-link-reader.js:196 | `trimEnd` removes exactly a white-space suffix |
| JsText.TrimBounds | src/song-link-reader.js:196 | `trim` returns the middle of the string, with white space only around it and none at its own ends |
| JsText.TrimIdempotent | src/song-link-reader.js:196 | trimming twice is trimming once |
| JsText.SplitSpaces | src/song-link-reader.js:196 | `split(/ +/)` returns at least one piece |
| JsText.DropSpaces | src/song-link-reader.js:196 | removing leading spaces leaves a string that does not start with a space |
| JsText.SplitSpacesPieces | src/song-link-reader.js:196 | no piece holds a space, and only the first and last pieces can be empty |
| JsText.SplitHeadNonEmpty | src/song-link-reader.js:196-197 | a line that does not start with a space has a non-empty first word |
| JsText.SplitJoin | src/song-link-reader.js:196 | splitting undoes joining with single spaces any pieces that contain no space |
| JsText.JoinSpacesEnds | src/song-link-reader.js:196 | joined non-empty pieces start with the first piece's first character and end with the last piece's last character |
| JsText.AsciiLower | src/song-link-reader.js:197 | lowering keeps the length and maps each character on its own |
| JsText.AsciiLowerMatches | src/song-link-reader.js:197-198 | a word lowers to a lower-case name iff it spells that name in any mix of cases |
| JsText.DigitRun | commands/fill.js:71 | the run of leading decimal digits is maximal |
| JsText.NatToString | commands/fill.js:71 | the decimal form of a natural number is non-empty and all digits |
| JsText.NatToStringValue | commands/fill.js:71 | the digits of n have the value n |
| JsText.ParseIntToString | commands/fill.js:71 | `parseInt(String(n), 10)` is n for every integer n |
| JsText.ParseIntNaN | commands/fill.js:71-72 | `parseInt` is NaN exactly when no digit follows the white space and sign |
| JsText.ParseIntIgnoresTail | commands/fill.js:71 | characters after the digits do not change the value |
| JsText.IndexOf | src/song-link-reader.js:163 | the first occurrence from the start position, or none at all |
| LinkScan.AlnumRun | src/song-link-reader.js:157 | the greedy run of letters and digits is maximal |
| LinkScan.MatchEnd | src/song-link-reader.js:157 | a match extends past the 31-character prefix into a non-empty run |
| LinkScan.MatchIsLink | src/song-link-reader.js:157 | what a match returns is a link: the prefix part and a run of letters and digits |
| LinkScan.ScanLinks | src/song-link-reader.js:157 | every match of the global scan is a link |
| LinkScan.ScanEmpty | src/song-link-reader.js:157 | the scan finds nothing exactly when the pattern matches nowhere from there |
| LinkScan.MatchesNull | src/song-link-reader.js:157-158 | `match` returns null exactly when no link is in the text |
| LinkScan.FirstTracker | src/song-link-reader.js:162 | the first place the tracker pattern matches, or none |
| LinkScan.TrackIds | src/song-link-reader.js:157-163 | one id per match |
| LinkScan.LinkHasNoTracker | src/song-link-reader.js:162 | a match never holds a `?si=` tracker, so removing the tracker never changes it |
| LinkScan.UrlOnlyAtStart | src/song-link-reader.js:163 | a link holds the URL prefix nowhere but at its start |
| LinkScan.TrackIdOfLink | src/song-link-reader.js:162-163 | the id of a match is its run after the prefix when the prefix is literal, and the whole match otherwise |
| LinkScan.TrackIdsShape | src/song-link-reader.js:157-163 | every id taken from a message is a run of letters and digits, or a whole look-alike match |
| LinkScan.LinkRoundTrip | src/song-link-reader.js:157-163 | a message that is just the link of an id yields exactly that id |
| LinkScan.LookAlikeMatched | src/song-link-reader.js:157 | any character but a line terminator at either unescaped dot still matches |
| LinkScan.DotsOnly | src/song-link-reader.js:157 | only dots at the two wildcards spell the literal prefix |
| Settings.CooldownWindow | commands/fill.js:65-68 | a command used at time t is refused for exactly three hours, with a wait between 0 and three hours; a missing cooldown never refuses |
| Settings.Config.constructor | src/song-link-reader.js:270-286 | a new configuration has the ten default prefixes and no guilds |
| FillCommand.PositionOf | commands/fill.js:33 | the first position of the message with that id |
| FillCommand.WindowSlice | commands/fill.js:14 | a fetched window is a contiguous slice of the history, empty only past the end |
| FillCommand.NextWindow | commands/fill.js:33 | fetching before the last message of a window gives the next window of the history |
| FillCommand.LinksOfAppend | commands/fill.js:18-31 | the ids of two runs of messages are the ids of the first and then of the second |
| FillCommand.LinksOfSnoc | commands/fill.js:22-28 | one more message appends its ids |
| FillCommand.GetAllSongs | commands/fill.js:12-37 | the result is the ids of the newest `Inspected(cap, n)` messages, in history and match order |
| FillCommand.ScanPage | commands/fill.js:19-30 | the page loop stops exactly at the cap and otherwise covers the whole page, collecting the ids of every message it passes |
| FillCommand.PushTracks | commands/fill.js:23-27 | a message adds exactly its track ids, in match order |
| FillCommand.FillCapArguments | commands/fill.js:70-91 | `fill n` caps at n+1, `fill` alone at 2^53-1, and two arguments are not understood |
| FillCommand.FillScanLength | commands/fill.js:21 | the scan of `fill n` covers min(n+1, length) messages for n >= 0, none for n = -1 and the whole history for n < -1 |
| FillCommand.Execute | commands/fill.js:58-92 | a non-moderator is ignored; a closed gate refuses with the wait; understood arguments close the gate at `now` and scan; anything else is not understood and changes nothing |
| ResetCommand.Execute | commands/reset.js:9-30 | a non-moderator is ignored; a closed gate refuses with the wait; otherwise the guild's playlist is cleared and the reset gate closes at `now` |
| SetCommand.StripMention | commands/set.js:17-19 | a `<#X>` mention is reduced to X and anything else is kept |
| SetCommand.StripMentionRoundTrip | commands/set.js:17-19 | the mention of a channel gives back the channel's id or name |
| SetCommand.FirstNamed | commands/set.js:21-27 | the first text channel whose id or name is the argument, or none |
| SetCommand.FindTextChannel | commands/set.js:21-27 | the channel loop finds exactly `FirstNamed` |
| SetCommand.IsValidPrefix | commands/set.js:52-55 | the prefix loop accepts exactly the valid prefixes |
| SetCommand.Execute | commands/set.js:5-64 | only the field the first argument names changes, and only to a valid value; a wrong argument count, an unknown channel, an invalid prefix or an unknown key changes nothing |
| SongLinkReader.CommandWords | src/song-link-reader.js:196-197 | a command line has at least one word |
| SongLinkReader.UnregisteredIgnored | src/song-link-reader.js:151-152 | a message from a guild without settings is ignored |
| SongLinkReader.DispatchRegistered | src/song-link-reader.js:196-204 | only a registered guild reaches a command, and only one of the known command names |
| SongLinkReader.AddSongsExactly | src/song-link-reader.js:155-163 | songs are added exactly when the message is in the music channel of a working guild and comes from a person; the ids and the playlist are those of the message and the guild |
| SongLinkReader.LinkMessageAdds | src/song-link-reader.js:157-163 | a person's message that is just a track link, in the music channel, adds exactly that track |
| SongLinkReader.DispatchExactly | src/song-link-reader.js:183-204 | a command runs exactly when the message is readable, does not take the link path, starts with the prefix, comes from a person, the guild works and the lower-cased first word names a command; the other words are its arguments |
| SongLinkReader.ReplyBrokenExactly | src/song-link-reader.js:185-193 | a guild that does not work answers only its moderators' commands, and only with the apology |
| SongLinkReader.BotsIgnored | src/song-link-reader.js:185 | nothing a bot sends is acted on |
| SongLinkReader.CommandWordsOfLine | src/song-link-reader.js:196 | a line of plain words separated by single spaces splits back into those words |
| SongLinkReader.CommandLineDispatch | src/song-link-reader.js:196-204 | the prefix, a command word in any case and plain arguments dispatch that command with those arguments |
| SongLinkReader.ClearedChannelEffect | src/song-link-reader.js:101-111 | deleting a channel clears at most one field, the music channel first; other fields are kept |
| SongLinkReader.OnChannelDelete | src/song-link-reader.js:101-111 | deleting a text channel clears the setting that named it; other channels change nothing |
| SongLinkReader.OnJoinServer | src/song-link-reader.js:118-128 | a joined guild gets the default settings with both cooldowns at 0 |
| SongLinkReader.OnPlaylistCreated | src/song-link-reader.js:131-140 | a created playlist's id is recorded; a failed request marks the guild as not operational |
| SongLinkReader.JoinedGuildRoutes | src/song-link-reader.js:118-141 | a freshly joined guild never adds songs, and settles with the created playlist or as not operational |
| SongLinkReader.HandleMessage | src/song-link-reader.js:150-206 | a dispatched `fill`, `set` or `reset` runs that command on the sender's guild with the sender's moderator flag and the words after the command, with the answer and new settings each command's `Executed` gives; nothing else changes the configuration, and no command touches another guild's entry |
| IndexHandlers.OnGuildCreate | index.js:32-42 | a joined guild gets the default settings with no cooldown fields |
| IndexHandlers.GuildCreateGatesOpen | index.js:32-53 | an entry made by index.js never closes the `fill` or `reset` gate |
| IndexHandlers.UnregisteredGuildCrashes | index.js:55-59 | see Findings: a message from an unregistered guild throws |
| IndexHandlers.RegisteredAgrees | index.js:55-110 | for a registered guild, index.js routes a message as `parseMessage` does |

## Left out

- The HTTP requests, OAuth tokens and `checkAccess` are not modelled. The service is an input: `Pages` answers page reads and `accept` answers add and delete requests.
- Asynchronous interleaving is not modelled. Each handler runs to completion. Concurrent `getAllIds` calls on the shared cache are not modelled.
- Logging, replies sent to the chat and the logging channel are not modelled. Config-file reading and writing, readline prompts and yargs options are not modelled either. This includes the cache-size option and `createConfig`'s file write. `createConfig` also never assigns the module-level `config`.
- Discord permission bitmasks are a boolean `moderator`, or `privileged` on a message.
- The set of commands is fixed to the four command files. `playlist` only replies, so it is routed but not modelled.
- Strings are sequences of code points; the source's UTF-16 units are not modelled. `toLowerCase` is modelled on ASCII letters only. `parseInt` returns exact integers, where the source's numbers round beyond 2^53.
- Track items with a null `track` are not modelled. The `__proto__` key and the enumeration order of `Object.values` are not modelled either. `Tracks.ObjectValues` returns the values in some order.
- Track maps are values, so their aliasing is not modelled. In src/utils/spotify-api.js, `removeDuplicates` writes into the map object the cache holds, and `updateSong` writes into it too. The model proves that the map it keeps equals the cache's copy (SpotifyApi.Service.RecordNew).
- A failing message fetch in `getAllSongs` is not modelled.
- The try/catch around command execution in both entry points is not modelled.
- LruCache.PlaylistCache.constructor and LegacyLru.LegacyCache.constructor: require `maxSize >= 1`. A zero-size cache would evict from an empty list.
- LruCache.PlaylistCache.Add: requires the id not to be cached. Every caller adds only after a miss.
- LruCache.PlaylistCache.UpdateSong: requires the playlist to be cached, as the source's comment asks of callers.
- LruCache.PlaylistCache.DeletePlaylist: requires the playlist to be cached. `clearPlaylist` reads it first.
- LegacyLru.LegacyCache.Add: requires the id not to clash with a field or an inherited name. Such an add would overwrite the cache's own fields.
- LegacyLru.LegacyCache.Get: a clashing id answers `FieldClash` and leaves the store unchanged. The source passes the `in` test, then reads `prev` of a field that is no node: it either throws at once or decrements `size`, deletes the field and re-adds `undefined`, which corrupts the cache and throws.
- LruCache.PlaylistCache.Get: looks the id up by map membership. The source's `in` on its plain index object also finds inherited names such as `toString`; Spotify's base-62 playlist ids never spell one.
- LegacyLru.LegacyCache.Get: beyond that, models the corrected promotion. The as-written behaviour is in CacheAsWritten.
- FillCommand.GetAllSongs: requires message ids unique within the channel, as the chat service guarantees. A fetch `before` an id is defined through that id's position.
- FillCommand.Execute, SetCommand.Execute and ResetCommand.Execute: require a moderator's guild to be registered. These commands are only reached through a dispatch, which needs a registered guild (SongLinkReader.DispatchRegistered).
- SongLinkReader.OnChannelDelete: requires the guild to be registered when a text channel is deleted. The source would throw for an unregistered guild.
- SongLinkReader.OnPlaylistCreated: requires the guild to be registered. It runs only after `onJoinServer` made its entry.
- SpotifyLegacy.BatchAddSongs: returns the number of tracks sent, the corrected count; the source's sum of `lastIndex % 100` (spotify.js:374-380) is in Findings.
- SpotifyApi.Service.BatchAddSongs: returns the number of tracks sent, the corrected count; the source's sum of `lastIndex % 100` is in Findings.
- Paging.FetchAllIds: ends because the page function is required to give an empty or rejected page at some offset. On a service that never does, the source's loop never ends; that is not modelled.
- SongLinkReader.HandleMessage: the `fill` result's upload through `batchAddSongs` is a separate operation (SpotifyApi.Service.BatchAddSongs) and is not chained here.
- The `channelDelete` and `createPlaylist` callbacks in index.js do what the SongLinkReader ones do, so they are modelled by SongLinkReader.OnChannelDelete and SongLinkReader.OnPlaylistCreated.

## Findings

| source | as written | input that shows it | evidently intended | confidence | as-written member | corrected member |
|---|---|---|---|---|---|---|
| src/utils/playlist-cache.js:75-78 | the head is only set when the cache is non-empty, so the first `add` leaves head and tail null with size 1 | add playlist A, then B, to a new cache: the second `add` dereferences the null head | the first entry becomes both head and tail | not executed | CacheAsWritten.SecondAddThrows | LruCache.PlaylistCache.Add |
| src/utils/playlist-cache.js:43-54 | a hit on a non-head entry swaps its own links, removes it and then calls `add` on the index object, which has no such method | `get("A")` on a cache holding B then A | the entry moves to the front and keeps its tracks | not executed | CacheAsWritten.NonHeadGetThrows | LruCache.PlaylistCache.Get |
| src/utils/playlist-cache.js:103-114 | `deletePlaylist` relinks the neighbours but never moves `head` or `tail` | delete B, the head, of a cache holding B then A | the neighbour becomes the new head or tail | not executed | CacheAsWritten.DeleteHeadDangles | LruCache.PlaylistCache.DeletePlaylist |
| playlist-cache.js:63 | `add` writes `this.head.prev` unconditionally | the first `add` into a new cache, whose head is null | an empty cache takes the entry as head and tail | not executed | CacheAsWritten.LegacyFirstAddThrows | LegacyLru.LegacyCache.Add |
| playlist-cache.js:32-43 | a hit re-adds the entry as a new node but leaves `tail` and its predecessor's `next` at the removed node | `get("A")` on a full two-entry cache holding B then A, then any `add` | the entry moves to the front and B becomes the tail | not executed | CacheAsWritten.LegacyGetStrandsTail | LegacyLru.LegacyCache.Get |
| src/utils/spotify-api.js:296-302 | each accepted request adds `lastIndex % 100` to the count, which is 99 for a full request of 100; spotify.js:374-380 does the same | 100 new tracks are reported as 99 added, and 250 as 248 | the number of tracks sent | not executed | Batching.ReportedCountValue | Batching.SendBatches |
| index.js:55-59 | the handler reads `music_channel` of the guild's entry before checking that the entry exists | any message from a guild not in `server_list` throws a TypeError | ignore the message, as src/song-link-reader.js:151-152 does | not executed | IndexHandlers.UnregisteredGuildCrashes | SongLinkReader.UnregisteredIgnored |
