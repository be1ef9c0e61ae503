# Aero, modelled in Dafny

Aero is a SvelteKit music client for YouTube Music. Users play songs, keep a
play queue, build and import playlists, and listen together in rooms. This
project models the logic of its core and proves what that logic promises:

- the player's queue engine: enqueue with de-duplication, remove, skip,
  previous, repeat and shuffle, the host gate, and the playlist rotation of
  `playPlaylist`;
- the pure transforms:
  - keyboard shortcut parsing, matching and formatting, with the shortcut
    table as data;
  - snake_case to camelCase key normalisation of realtime payloads;
  - the thumbnail proxy URL builder and the server redirect that is its
    inverse;
  - count and clock formatting;
  - the song record projection;
  - the download file-name sanitiser;
- the in-place array move behind drag-and-drop sorting, and the stores for
  the playlists cache, the songs cache and the current room;
- the two schedulers: the thumbnail request queue with its concurrency cap,
  and the adaptive rate-limit handler that halves and regrows its limit;
- the context-menu entries each user sees;
- the route handlers:
  - the guard chains of the import, room, user, download and lyrics routes;
  - the accounting loop of playlist import;
  - the refresh redirect and the request locals of the server hooks;
  - the "first room I am in" redirect of the room list page.

The shape of the model follows the source:

- The global player store, the caches, the schedulers, the import route and
  the room and user APIs are classes whose methods update their fields.
- `reorder` works in place on an `array`.
- Everything that only computes a value is a function, with lemmas about it.
- Each imperative method is proved against a function that states what it
  computes.

The outside world enters as parameters: YouTube Music and Spotify answers,
search results, youtube-dl output, database rows, the clock, and the host
test for rooms. The YouTube player and the room API calls the player makes
are recorded as an ordered log of effects.

## Model

| member | source | states |
|---|---|---|
| Songs.FetchSongDetailed | src/lib/playlist/index.ts:3-13 | type, name, videoId, artist, duration and thumbnails are copied; the album is always the blank album |
| Songs.FetchSongDetailedForgetsFormats | src/lib/player/index.ts:382-392 | the projection depends only on the six copied fields, so the player's copy of the function and the playlist module's agree |
| Player.EnhanceSong | src/lib/player/index.ts:11-27 | the enhanced song keeps the song and its video id |
| Player.ThumbnailsArePresets | src/lib/player/index.ts:19-25 | the five thumbnail URLs are the SMALL, MEDIUM, LARGE, XLARGE and FULL presets of the thumbnail store applied to one source URL |
| Player.EnhanceSongSource | src/lib/player/index.ts:12-13 | that source is the first thumbnail's URL with every wide size suffix removed; a song without thumbnails gets "" for all five |
| Player.EnhanceSongIdempotent | src/lib/player/index.ts:11-27 | enhancing an enhanced song again changes nothing |
| Player.WithoutId | src/lib/player/index.ts:173 | filtering by id keeps only entries of other ids, all taken from the queue |
| Player.FindById | src/lib/player/index.ts:278 | the lookup by id gives an entry of the queue with that id, and nothing exactly when no entry has it |
| Player.IndexOfId | src/lib/player/index.ts:264 | the first position holding the id, or -1 exactly when no entry has it |
| Player.NextIndex | src/lib/player/index.ts:316 | the next position is always inside the queue |
| Player.PrevIndex | src/lib/player/index.ts:274 | the previous position is always inside the queue |
| Player.NextPrevInverse | src/lib/player/index.ts:274-316 | for a queued song, next then previous (or previous then next) comes back to it |
| Player.AbsentSongWraps | src/lib/player/index.ts:274-316 | a song missing from the queue moves to the first entry on skip and to the last on previous |
| Player.CurrentId | src/lib/player/index.ts:262 | the current id is there exactly when a song is current and its id is not "" |
| Player.CountIdAppend | src/lib/player/index.ts:173-176 | the number of entries with an id adds up over concatenation |
| Player.WithoutIdAppend | src/lib/player/index.ts:173-176 | filtering works piece by piece, so the kept entries keep their order |
| Player.WithoutIdCounts | src/lib/player/index.ts:192 | filtering an id removes all its entries and keeps the count of every other id |
| Player.WithoutIdIdempotent | src/lib/player/index.ts:192 | filtering twice by one id is filtering once |
| Player.EnqueuedOnceAtTail | src/lib/player/index.ts:165-178 | after `addToQueue` the song is in the queue exactly once, at the tail, and the other entries are the old ones in their old order |
| Player.WithoutIdNoDup | src/lib/player/index.ts:192 | removing keeps a queue free of duplicate ids |
| Player.EnqueuedNoDup | src/lib/player/index.ts:165-178 | enqueueing keeps a queue free of duplicate ids |
| Player.CountIdPositive | src/lib/player/index.ts:173-176 | an entry's id occurs at least once in the queue |
| Player.NoDupTail | src/lib/player/index.ts:173-176 | dropping the head keeps a queue free of duplicates, and no later entry repeats the head's id |
| Player.FindByIdNoDup | src/lib/player/index.ts:278 | in a queue without duplicate ids, looking up an entry's id finds that entry |
| Player.IndexOfIdNoDup | src/lib/player/index.ts:264 | in a queue without duplicate ids, an entry's id is found at that entry's position |
| Player.NeighbourIsFound | src/lib/player/index.ts:253-341 | in a queue without duplicate ids, an unshuffled skip or previous finds the current song at its own position, and the neighbour it moves to becomes current itself |
| Player.Rotation | src/lib/player/index.ts:149-151 | `[s, ...after, ...before]` keeps the playlist's length |
| Player.RotationIndex | src/lib/player/index.ts:149-151 | entry `j` of the rotation is entry `(k + j) mod n` of the playlist |
| Player.RotationPermutes | src/lib/player/index.ts:149-151 | the rotation is a permutation of the playlist |
| Player.EnhanceAll | src/lib/player/index.ts:151 | every entry is enhanced, in order |
| Player.FetchAll | src/lib/player/index.ts:131 | every playlist song is projected, in order |
| Player.IndexOfSong | src/lib/player/index.ts:146 | the first position of the song in the playlist, or -1 exactly when it is absent |
| Player.PlaylistQueueAt | src/lib/player/index.ts:146-151 | entry `j >= 1` of the new queue is playlist entry `(k + j) mod n`, enhanced |
| Player.PlaylistQueueIsRotation | src/lib/player/index.ts:145-157 | the new queue has the playlist's length, starts with the chosen song, and its ids are exactly those of the playlist rotated to start at it |
| Player.Stopped | src/lib/player/index.ts:226-244 | `stop` restores the initial store except that the player stays |
| Player.Requeued | src/lib/player/index.ts:195 | after a queue change, a queue shorter than 2 turns shuffle and the queue panel off |
| Player.PlayerStore.constructor | src/lib/player/index.ts:29-41 | the store starts with its initial value and an empty effect log |
| Player.PlayerStore.InitPlayer | src/lib/player/index.ts:48-73 | `init` creates the player and logs it |
| Player.PlayerStore.AddToQueue | src/lib/player/index.ts:165-185 | without a player nothing changes; otherwise the queue becomes the de-duplicated queue with the song at the tail, and the host's room is told |
| Player.PlayerStore.RemoveFromQueue | src/lib/player/index.ts:187-202 | without a player nothing changes; otherwise every entry with the song's id goes, the short-queue rule applies, and the host's room is told |
| Player.PlayerStore.ClearQueue | src/lib/player/index.ts:204-209 | empties the queue and turns shuffle and the queue panel off |
| Player.PlayerStore.TogglePause | src/lib/player/index.ts:211-224 | pauses a playing video and resumes anything else, telling the room; the store is unchanged |
| Player.PlayerStore.Stop | src/lib/player/index.ts:226-244 | stops the video and resets the store except for the player |
| Player.PlayerStore.SetVolume | src/lib/player/index.ts:246-251 | sets the player's volume when there is a player |
| Player.PlayerStore.SetLoop | src/lib/player/index.ts:343-352 | sets the loop mode; the player loops its playlist only in queue mode; the room is told |
| Player.PlayerStore.SetShuffle | src/lib/player/index.ts:354-362 | sets shuffle and tells the room |
| Player.PlayerStore.SeekTo | src/lib/player/index.ts:364-372 | seeks the video and tells the room |
| Player.PlayerStore.ToggleQueue | src/lib/player/index.ts:374-376 | flips the queue panel and closes the lyrics panel |
| Player.PlayerStore.ToggleLyrics | src/lib/player/index.ts:378-380 | flips the lyrics panel and closes the queue panel |
| Player.PlayerStore.Play | src/lib/player/index.ts:90-128 | outside a room event a non-host only gets a player and changes neither the current song nor the queue; otherwise the song becomes current, is enqueued unless it comes from the queue, and is loaded and played in order |
| Player.PlayerStore.PlayPlaylist | src/lib/player/index.ts:130-162 | the song becomes current and plays; when it is in the playlist the queue becomes the rotated playlist and the host's room gets it, otherwise the queue is what `play` left |
| Player.PlayerStore.Skip | src/lib/player/index.ts:293-341 | repeat-single restarts the song; with at least two queued and a current song it moves to the given song, a random other entry when shuffling, or the next entry (wrapping to the first); the current song's entries are consumed unless looping the queue; the new current song is the queue entry with the chosen id |
| Player.PlayerStore.Previous | src/lib/player/index.ts:253-291 | with at most one queued song or repeat-single it restarts the song; otherwise it moves to the given song, a random entry when shuffling, or the entry before (wrapping to the last); the queue never changes |
| Sortable.RemoveAt | src/lib/sortable/index.svelte.ts:18 | taking an element out shortens the array by one |
| Sortable.InsertAt | src/lib/sortable/index.svelte.ts:19 | putting an element in lengthens it by one |
| Sortable.MovedAt | src/lib/sortable/index.svelte.ts:18-19 | element by element: outside the two indices nothing moves, the moved element lands at the new index, and those in between shift by one |
| Sortable.MovedLands | src/lib/sortable/index.svelte.ts:18-19 | the move keeps the length and lands the element at the new index |
| Sortable.MovedSame | src/lib/sortable/index.svelte.ts:14-16 | moving an element onto itself changes nothing |
| Sortable.MovedKeepsOthers | src/lib/sortable/index.svelte.ts:18-19 | the other elements keep their relative order |
| Sortable.MovedPermutes | src/lib/sortable/index.svelte.ts:18-19 | the move is a permutation |
| Sortable.MovedBack | src/lib/sortable/index.svelte.ts:18-19 | moving back undoes the move |
| Sortable.Reorder | src/lib/sortable/index.svelte.ts:11-21 | the argument array is returned; without both indices it is unchanged, otherwise it holds the moved sequence |
| Shortcuts.ParseShortcut | src/lib/ctxmenu/shortcuts.ts:549-566 | an object is returned as it is; for text the key is what follows the last "+", and each of the four modifier flags is given, true or false |
| Shortcuts.JoinLast | src/lib/ctxmenu/shortcuts.ts:555-557 | joining two or more parts is the join of all but the last, the separator, and the last |
| Shortcuts.KeyIsLastSegment | src/lib/ctxmenu/shortcuts.ts:555-557 | the key is the text after the last "+", and the text before it is the modifier segments joined by "+" |
| Shortcuts.MatchesExactModifiers | src/lib/ctxmenu/shortcuts.ts:568-586 | a matching event stops matching when any one modifier is pressed or released |
| Shortcuts.AliasesMatch | src/lib/ctxmenu/shortcuts.ts:572-576 | "Space" matches the space bar and "Del" the Delete key, whatever the code |
| Shortcuts.ModifierNames | src/lib/ctxmenu/shortcuts.ts:592-598 | at most four modifier words are written |
| Shortcuts.DisplayKey | src/lib/ctxmenu/shortcuts.ts:600-609 | the display form of a key has a "+" only when the key has one |
| Shortcuts.FormatShortcut | src/lib/ctxmenu/shortcuts.ts:588-613 | the push-based method returns the formatted text: written shortcuts unchanged, else Ctrl, Alt, Shift, Cmd, then the display key, joined by "+" |
| Shortcuts.ModifierWordsLower | src/lib/ctxmenu/shortcuts.ts:561-564 | the modifier words read back as the lower-case names the parser tests |
| Shortcuts.HasModifierAppend | src/lib/ctxmenu/shortcuts.ts:561-564 | a modifier is among a concatenation exactly when it is in one part |
| Shortcuts.HasModifierOne | src/lib/ctxmenu/shortcuts.ts:561-564 | a single word names a modifier exactly when it lower-cases to it |
| Shortcuts.ModifierNamesRead | src/lib/ctxmenu/shortcuts.ts:561-564 | reading the written modifier words back gives the flags they were written from |
| Shortcuts.FormatThenParse | src/lib/ctxmenu/shortcuts.ts:549-612 | for a key without "+", formatting then parsing keeps all four modifier flags and gives the display form of the key |
| Shortcuts.PlusKeyDoesNotRoundTrip | src/lib/ctxmenu/shortcuts.ts:278 | the shifted "+" key is written "Shift++" and reads back with an empty key |
| ShortcutTable.Flag | src/lib/ctxmenu/shortcuts.ts:116-545 | a table modifier is either set to true or left out |
| ShortcutTable.EntryShortcut | src/lib/ctxmenu/shortcuts.ts:4-546 | an entry's shortcut has its key and exactly its group's modifiers set |
| ShortcutTable.EntryNeedsGroupModifiers | src/lib/ctxmenu/shortcuts.ts:578-584 | an entry is triggered only with exactly its group's modifiers held |
| Actions.CreateSongActions | src/lib/ctxmenu/actions.ts:31-149 | the push-built list is the song menu |
| Actions.SongMenuParts | src/lib/ctxmenu/actions.ts:31-149 | the menu is the host's entries, then "Add to Playlist" for a signed-in user, then "Copy Song Link" and "Song Info" |
| Actions.SongMenuHostGate | src/lib/ctxmenu/actions.ts:36-99 | only the host gets play and queue entries; the host's menu starts with "Resume" or "Pause" for the playing song and "Play" for any other |
| Actions.SongMenuQueueEntries | src/lib/ctxmenu/actions.ts:68-98 | "Add to Queue" exactly for the host with a non-empty queue and a song neither playing nor queued; "Remove from Queue" exactly for the host with a queued song that is not playing; never both |
| Actions.SongMenuCommonEntries | src/lib/ctxmenu/actions.ts:102-148 | "Add to Playlist" exactly for a signed-in user; the menu ends with "Copy Song Link" then "Song Info"; no entry is disabled |
| Actions.CreatePlaylistActions | src/lib/ctxmenu/actions.ts:152-219 | always Share, Rename, Delete, in that order |
| Actions.CreatePlaylistSongActions | src/lib/ctxmenu/actions.ts:222-339 | the whole menu, in order: "Play" for the host, then "Add to Queue" for the host with a non-empty queue, then "Copy Song Link" and "Song Info" for everyone, then "Remove from Playlist" exactly when both user ids are present and equal; nothing else, nothing disabled |
| Actions.CreateRoomActions | src/lib/ctxmenu/actions.ts:413-468 | the host gets exactly "Copy Room Link"; anyone else gets "Copy Room Link" then "Join Room", disabled while a join is under way |
| Actions.PlaylistSubmenu | src/lib/ctxmenu/actions.ts:354-406 | a single disabled "No playlists found" entry, or one entry per playlist named after it, in order |
| Actions.LoadPlaylistSubmenu | src/lib/ctxmenu/actions.ts:341-410 | a fresh cache is read without a refresh; a missing or stale cache is refreshed first, and the menu fails with "Failed to load playlists" exactly when the refresh throws |
| Actions.FreshCacheNotRefreshed | src/lib/ctxmenu/actions.ts:346-352 | with a fresh cache the menu does not depend on the refresh; with nothing cached it is the same as with a stale cache |
| Channel.Camelize | src/lib/supabase/channel.ts:5-7 | empty exactly for empty input; a leading lower-case letter is kept; a leading "_" stays only when no lower-case letter follows it |
| Channel.CamelizeLength | src/lib/supabase/channel.ts:5-7 | the output is the input's length minus the number of replacements |
| Channel.CamelizeNoSnake | src/lib/supabase/channel.ts:5-7 | no "_" followed by a lower-case letter is left |
| Channel.CamelizeFixed | src/lib/supabase/channel.ts:5-7 | a string with nothing to replace is left alone |
| Channel.CamelizeNoUnderscore | src/lib/supabase/channel.ts:5-7 | a string without "_" is left alone |
| Channel.CamelizeIdempotent | src/lib/supabase/channel.ts:5-7 | camelizing twice is camelizing once |
| Channel.LookupFinds | src/lib/supabase/channel.ts:19 | a key is found exactly when some entry has it |
| Channel.Assign | src/lib/supabase/channel.ts:20 | the assigned key takes the value, other keys keep theirs, an existing key keeps its place, a new key goes last |
| Channel.AssignDistinct | src/lib/supabase/channel.ts:20 | assigning keeps the keys distinct |
| Channel.AssignAll | src/lib/supabase/channel.ts:16-21 | the object the loop builds has distinct keys |
| Channel.AssignAllLastWins | src/lib/supabase/channel.ts:16-21 | when two keys camelize alike, the later one's value wins |
| Channel.AssignAllDistinct | src/lib/supabase/channel.ts:16-21 | writing distinct keys into `{}` gives them back in order |
| Channel.CamelizeKeysShape | src/lib/supabase/channel.ts:9-25 | null, undefined and primitives pass through; arrays keep length and order; objects get distinct keys |
| Channel.CamelizeKeysObject | src/lib/supabase/channel.ts:14-22 | a camelized key holds the normalised value of the last original key that camelizes to it |
| Channel.CamelizeKeysFixed | src/lib/supabase/channel.ts:9-25 | a value with no snake-case key at any depth is left as it is |
| Channel.CamelizeKeysNormalises | src/lib/supabase/channel.ts:9-25 | no key at any depth of the output has "_" followed by a lower-case letter |
| Channel.AssignAllNormalised | src/lib/supabase/channel.ts:16-21 | writing normalised pairs gives normalised entries |
| Channel.AssignNormalised | src/lib/supabase/channel.ts:20 | assigning a normalised pair keeps the entries normalised |
| Channel.CamelizeKeysIdempotent | src/lib/supabase/channel.ts:9-25 | normalising twice is normalising once |
| Channel.NormaliseKeys | src/lib/supabase/channel.ts:9-25 | the recursive method with its `for` loop over the keys computes the normalised value |
| Thumbnail.DigitRun | src/lib/stores/thumbnail.ts:30 | the leading digit run fits in the string |
| Thumbnail.DigitRunDigits | src/lib/stores/thumbnail.ts:30 | the run is all digits and stops at a non-digit or the end |
| Thumbnail.DigitsThen | src/lib/stores/thumbnail.ts:30 | a `\d+lit` match is longer than the literal and fits |
| Thumbnail.MatchNarrow | src/lib/stores/thumbnail.ts:30 | a match of the client's pattern is longer than "=w" and fits |
| Thumbnail.MatchGroups | src/lib/player/index.ts:13 | a match of the wide pattern's tail is at least "-rj" long and fits |
| Thumbnail.MatchWide | src/lib/player/index.ts:13 | a match of the wide pattern is longer than "=w" and fits |
| Thumbnail.MatchAt | src/lib/stores/thumbnail.ts:30 | a match is non-empty and fits |
| Thumbnail.RemoveAll | src/lib/stores/thumbnail.ts:30 | removing matches never lengthens the string |
| Thumbnail.NoMatchTail | src/lib/stores/thumbnail.ts:30 | a string without matches has none at its start and none in its tail |
| Thumbnail.RemoveAllNoMatch | src/lib/stores/thumbnail.ts:30 | removing from a string without matches changes nothing |
| Thumbnail.DigitsThenAlphabet | src/lib/stores/thumbnail.ts:30 | a `\d+lit` match holds only digits and the literal's characters |
| Thumbnail.DigitRunPrefix | src/lib/stores/thumbnail.ts:30 | the digit run depends only on the characters up to just past it |
| Thumbnail.DigitsThenPrefix | src/lib/stores/thumbnail.ts:30 | a `\d+lit` match depends only on the matched characters |
| Thumbnail.NarrowOf | src/lib/stores/thumbnail.ts:30 | the client's pattern matches a string made of its four parts |
| Thumbnail.SlicePrefix | src/lib/stores/thumbnail.ts:30 | strings agreeing on a prefix agree on every slice inside it |
| Thumbnail.NarrowDependsOnPrefix | src/lib/stores/thumbnail.ts:30 | a match of the client's pattern depends only on the matched characters |
| Thumbnail.NarrowMatchHasOneEquals | src/lib/stores/thumbnail.ts:30 | inside such a match only the first character is "=" |
| Thumbnail.DigitRunOf | src/lib/stores/thumbnail.ts:30 | the digit run of digits followed by a non-digit is those digits |
| Thumbnail.DigitsThenOf | src/lib/stores/thumbnail.ts:30 | digits followed by the literal match as `\d+lit` |
| Thumbnail.SuffixShape | src/routes/api/thumbnail/+server.ts:23 | the server's suffix is "=w", width, "-h", height, "-l", quality, "-rj" |
| Thumbnail.SuffixMatches | src/routes/api/thumbnail/+server.ts:23 | with digit fields the whole server suffix is one match of the client's pattern |
| Thumbnail.NoMatchAcross | src/lib/stores/thumbnail.ts:30 | no match starts inside a suffix-free URL and runs into a following suffix |
| Thumbnail.WholeMatchStrips | src/lib/stores/thumbnail.ts:30 | one whole match strips to nothing |
| Thumbnail.RemoveAllKeeps | src/lib/stores/thumbnail.ts:30 | where no match starts, the first character is kept |
| Thumbnail.ConsAppend | src/lib/stores/thumbnail.ts:30 | splitting off the first character of a concatenation |
| Thumbnail.StripWholeMatch | src/lib/stores/thumbnail.ts:30 | a suffix-free URL followed by one whole match strips back to the URL |
| Thumbnail.StripServerSuffix | src/routes/api/thumbnail/+server.ts:23 | the server's suffix on a suffix-free URL is stripped by the client's pattern, giving the URL back |
| Thumbnail.GetThumbnailUrlShape | src/lib/stores/thumbnail.ts:28-37 | "" exactly for an empty URL; otherwise the cleaned URL, then w, h and q exactly when truthy |
| Thumbnail.GetThumbnailUrlOrder | src/lib/stores/thumbnail.ts:31-36 | the parameters always come in the order url, w, h, q |
| Thumbnail.PresetParams | src/lib/stores/thumbnail.ts:6-12 | a preset sets both sides to its size, FULL sets neither, none sets q |
| Thumbnail.Render120 | src/lib/stores/thumbnail.ts:8 | the MEDIUM default renders as "120" |
| Thumbnail.GetSongThumbnail | src/lib/stores/thumbnail.ts:56-59 | "" for a missing or empty list |
| Thumbnail.GetSongThumbnailWithSize | src/lib/stores/thumbnail.ts:67-70 | "" for a missing or empty list |
| Thumbnail.SongThumbnailUsesFirst | src/lib/stores/thumbnail.ts:56-70 | only the first thumbnail matters |
| Thumbnail.ThumbnailStore.constructor | src/lib/stores/thumbnail.ts:81-84 | the store starts at quality 90 with the cache on |
| Thumbnail.ThumbnailStore.SetDefaultQuality | src/lib/stores/thumbnail.ts:87-89 | changes only the quality |
| Thumbnail.ThumbnailStore.ToggleCache | src/lib/stores/thumbnail.ts:90-92 | flips only the cache flag |
| ThumbnailRoute.OrElse | src/routes/api/thumbnail/+server.ts:20-22 | a given parameter wins, otherwise the fallback |
| ThumbnailRoute.Get | src/routes/api/thumbnail/+server.ts:7-34 | 400 exactly without a url; every redirect is 302 and cached for good; without w and h the target is the url itself; with either, the url plus the size suffix with defaults "0", "0" and "90" |
| ThumbnailRoute.QualityAloneIgnored | src/routes/api/thumbnail/+server.ts:19 | without a size, q makes no difference |
| ThumbnailRoute.RedirectStrips | src/routes/api/thumbnail/+server.ts:18-24 | stripping the target with the client's pattern gives the URL back, for a suffix-free URL and digit parameters |
| ThumbnailRoute.GetParam | src/routes/api/thumbnail/+server.ts:9-16 | a parameter is found exactly when one has that name |
| ThumbnailRoute.Serve | src/routes/api/thumbnail/+server.ts:7-34 | a proxied URL is served, "" is not |
| ThumbnailRoute.ReadBackDigits | src/lib/stores/thumbnail.ts:33-35 | a non-negative size is read back as digits, and is there exactly when truthy |
| ThumbnailRoute.ReadOptional | src/lib/stores/thumbnail.ts:33-35 | the route reads back an optional parameter in front of others |
| ThumbnailRoute.SkipOptional | src/lib/stores/thumbnail.ts:33-35 | a parameter of another name does not hide the one looked up |
| ThumbnailRoute.ClientQueryReads | src/lib/stores/thumbnail.ts:31-36 | the route finds each parameter the client set, and nothing for one it left out |
| ThumbnailRoute.ProxyRoundTrip | src/routes/api/thumbnail/+server.ts:18-24 | end to end, the proxied URL redirects to a CDN URL that strips back to the original, and without sizes is the original |
| Schema.MergePlaylistFields | src/lib/stores/playlistsCache.ts:55 | a field the update carries takes its value; any other keeps the playlist's |
| Schema.MergePlaylistIdempotent | src/lib/stores/playlistsCache.ts:55 | merging an update twice is merging it once; an empty update changes nothing |
| Schema.MergeRoomFields | src/lib/stores/userRoom.ts:14 | a field the patch carries takes its value; any other keeps the room's |
| Schema.MergeRoomIdempotent | src/lib/stores/userRoom.ts:14 | merging a patch twice is merging it once; an empty patch changes nothing |
| PlaylistsCache.WithoutPlaylist | src/lib/stores/playlistsCache.ts:46 | exactly the playlists of other ids are kept |
| PlaylistsCache.WithoutPlaylistAppend | src/lib/stores/playlistsCache.ts:46 | filtering works piece by piece, so order is kept |
| PlaylistsCache.WithoutAbsentPlaylist | src/lib/stores/playlistsCache.ts:46 | a list without that id is unchanged |
| PlaylistsCache.WithoutPlaylistIdempotent | src/lib/stores/playlistsCache.ts:46 | removing twice is removing once |
| PlaylistsCache.UpdatedPlaylists | src/lib/stores/playlistsCache.ts:55 | the length is kept |
| PlaylistsCache.UpdatedPlaylistsSpec | src/lib/stores/playlistsCache.ts:55 | playlists of other ids are untouched and matching ones take exactly the update's fields |
| PlaylistsCache.UpdatedPlaylistsIdempotent | src/lib/stores/playlistsCache.ts:55 | an update that does not change the id, applied twice, is applied once |
| PlaylistsCache.IsStale | src/lib/stores/playlistsCache.ts:61-65 | nothing cached is stale |
| PlaylistsCache.StalenessOverTime | src/lib/stores/playlistsCache.ts:61-65 | fresh data stays fresh up to `maxAge` later (strict test), and once stale stays stale |
| PlaylistsCache.GetPlaylists | src/lib/stores/playlistsCache.ts:66-68 | [] when nothing is cached, else the playlists |
| PlaylistsCache.PlaylistsCacheStore.constructor | src/lib/stores/playlistsCache.ts:10 | nothing is cached at first |
| PlaylistsCache.PlaylistsCacheStore.SetCache | src/lib/stores/playlistsCache.ts:14-19 | the cache holds the playlists, stamped now |
| PlaylistsCache.PlaylistsCacheStore.UpdateCache | src/lib/stores/playlistsCache.ts:20-27 | the playlists are replaced whatever was there, stamped now |
| PlaylistsCache.PlaylistsCacheStore.AddPlaylist | src/lib/stores/playlistsCache.ts:28-41 | the playlist goes first, starting a list when there was none, stamped now |
| PlaylistsCache.PlaylistsCacheStore.RemovePlaylist | src/lib/stores/playlistsCache.ts:42-50 | nothing cached stays so; otherwise exactly that id's playlists go, stamped now |
| PlaylistsCache.PlaylistsCacheStore.UpdatePlaylist | src/lib/stores/playlistsCache.ts:51-59 | nothing cached stays so; otherwise the update is merged into that id's playlists, stamped now |
| PlaylistsCache.PlaylistsCacheStore.ClearCache | src/lib/stores/playlistsCache.ts:60 | nothing is cached |
| SongsCache.MergeCategories | src/lib/stores/cache/songsCache.ts:28 | new keys win, old keys stay, and no other key appears |
| SongsCache.IsStale | src/lib/stores/cache/songsCache.ts:36-40 | nothing cached is stale |
| SongsCache.StalenessOverTime | src/lib/stores/cache/songsCache.ts:36-40 | data is fresh until `maxAge` has passed and stale after |
| SongsCache.SongsCacheStore.constructor | src/lib/stores/cache/songsCache.ts:11 | nothing is cached at first |
| SongsCache.SongsCacheStore.SetCache | src/lib/stores/cache/songsCache.ts:15 | replaces everything |
| SongsCache.SongsCacheStore.UpdateCache | src/lib/stores/cache/songsCache.ts:16-34 | starts a cache from the arguments, or merges the categories and replaces offset and more-pages flag; stamped now |
| SongsCache.SongsCacheStore.ClearCache | src/lib/stores/cache/songsCache.ts:35 | nothing is cached |
| UserRoom.UserRoomStore.constructor | src/lib/stores/userRoom.ts:5 | no room at first |
| UserRoom.UserRoomStore.Set | src/lib/stores/userRoom.ts:8-10 | replaces the stored room |
| UserRoom.UserRoomStore.Update | src/lib/stores/userRoom.ts:11-16 | no room stays no room; otherwise the patch's fields replace the room's |
| UserRoom.UserRoomStore.Clear | src/lib/stores/userRoom.ts:17-19 | forgets the room |
| RequestQueue.Enqueue | src/lib/utils/requestQueue.ts:45-50 | one item more, nothing else lost; a priority item goes in front of the queue, an ordinary one at its back |
| RequestQueue.IndexOf | src/lib/utils/requestQueue.ts:45-50 | the first position holding the id |
| RequestQueue.EnqueueOrder | src/lib/utils/requestQueue.ts:45-50 | a new priority item is taken before everything waiting, a new ordinary one after everything waiting |
| RequestQueue.RequestQueue.constructor | src/lib/utils/requestQueue.ts:16-19 | an empty queue, nothing running, the given cap |
| RequestQueue.RequestQueue.ProcessNext | src/lib/utils/requestQueue.ts:56-66 | starts the front task exactly when a slot is free and something waits |
| RequestQueue.RequestQueue.Add | src/lib/utils/requestQueue.ts:26-54 | queues the task by priority, then starts one if a slot is free; keeps the cap |
| RequestQueue.RequestQueue.Complete | src/lib/utils/requestQueue.ts:34-37 | frees the slot and starts the next waiting task; keeps the cap |
| RequestQueue.RequestQueue.GetStatus | src/lib/utils/requestQueue.ts:71-77 | queued, running and available as counted; available is never negative while the cap is kept |
| RateLimit.OrInt | src/lib/utils/rateLimit.ts:27-30 | a falsy number takes the default |
| RateLimit.OrReal | src/lib/utils/rateLimit.ts:31 | a falsy number takes the default |
| RateLimit.Halved | src/lib/utils/rateLimit.ts:107 | half the limit, rounded down, but not below the minimum |
| RateLimit.Grown | src/lib/utils/rateLimit.ts:67-69 | one more on every tenth success, never above the maximum |
| RateLimit.AdjustmentsKeepBounds | src/lib/utils/rateLimit.ts:67-69 | halving and growing keep the limit between minimum and maximum |
| RateLimit.TenSuccessesGrowOnce | src/lib/utils/rateLimit.ts:64-69 | ten successes in a row raise the limit by one unless it is at the maximum |
| RateLimit.RateLimitCaseInsensitive | src/lib/utils/rateLimit.ts:100-101 | the message test ignores ASCII case |
| RateLimit.TypicalRateLimitErrors | src/lib/utils/rateLimit.ts:96-103 | status 429, statusCode 429, "Rate limit exceeded" and "Too Many Requests" are recognised, a plain 500 is not |
| RateLimit.RateLimitHandler.constructor | src/lib/utils/rateLimit.ts:26-32 | falsy fields take 5, 1, 10, 1000 and 1.5; nothing queued or counted |
| RateLimit.RateLimitHandler.DefaultsInBounds | src/lib/utils/rateLimit.ts:27-29 | the defaults are within bounds |
| RateLimit.RateLimitHandler.ProcessQueue | src/lib/utils/rateLimit.ts:52-60 | starts the oldest task exactly when a slot is free and something waits |
| RateLimit.RateLimitHandler.Execute | src/lib/utils/rateLimit.ts:45-50 | queues at the back, then tries to start one |
| RateLimit.RateLimitHandler.AttemptFailed | src/lib/utils/rateLimit.ts:80-93 | a rate-limit error counts a hit, halves the limit and retries with the next attempt number; any other error is rethrown; bounds are kept |
| RateLimit.RateLimitHandler.Settle | src/lib/utils/rateLimit.ts:62-77 | a success is counted and may grow the limit; either way the slot is freed and the next task may start; bounds are kept |
| RateLimit.RateLimitHandler.GetStats | src/lib/utils/rateLimit.ts:123-131 | reports the counters as they are |
| Format.FirstUnit | src/lib/utils/format.ts:10-17 | the first unit in table order that fits, or none when no unit fits |
| Format.FirstUnitCases | src/lib/utils/format.ts:4-11 | each unit is chosen exactly on its range: T from 10^12, B from 10^9, M from 10^6, k from 10^3 |
| Format.FormatCount | src/lib/utils/format.ts:1-22 | a negative count starts with "-" |
| Format.FormatCountNegative | src/lib/utils/format.ts:2-3 | a negative count is "-" and the count of its absolute value |
| Format.FormatCountSmall | src/lib/utils/format.ts:19-21 | below a thousand the count is the plain decimal number and reads back as itself |
| Format.DivParts | src/lib/utils/format.ts:12-16 | floored division bounds, and a remainder exactly when the quotient times the unit misses |
| Format.UnitParts | src/lib/utils/format.ts:12-16 | with unit `u` chosen, the text is the number of whole units, the suffix, and "+" exactly when something is left over |
| Format.FormatCountLarge | src/lib/utils/format.ts:4-16 | from a thousand up, the largest unit that fits is chosen, at least 1 and below 1000 of it (except T), with "+" exactly when not exact |
| Format.FormatCountSixtyThousand | src/lib/utils/format.ts:12-16 | 60230 is "60k+" |
| Format.FormatCountExact | src/lib/utils/format.ts:12-16 | 2000 is "2k" |
| Format.FormatCountNegativeExample | src/lib/utils/format.ts:2-3 | -1500 is "-1k+" |
| Format.UnitExample | src/lib/utils/format.ts:10-16 | from a thousand to below a million, the text is whole thousands, "k", and "+" when not exact |
| Time.Pad | src/lib/utils/time.ts:6 | a padded field is digits without ":" and two long below 100 |
| Time.ParsePad | src/lib/utils/time.ts:6 | a padded field reads back as its number |
| Time.SecondsField | src/lib/utils/time.ts:3-8 | the seconds field is two digits and is the seconds within the minute |
| Time.MinutesForm | src/lib/utils/time.ts:4-8 | up to 60 minutes the text is minutes then seconds and reads back as the input, so 3600 is "60:00" |
| Time.FormatTimeFields | src/lib/utils/time.ts:1-9 | the fields as written: hours, total minutes and seconds past 60 minutes, else minutes and seconds |
| Time.HoursFieldIsTotalMinutes | src/lib/utils/time.ts:5-6 | 3700 seconds is written "1:61:40", which reads back as 7300 |
| Time.HoursFormMisreads | src/lib/utils/time.ts:5-6 | past 60 minutes the text as written reads back 3600 seconds too high per hour |
| Time.CorrectedFields | src/lib/utils/time.ts:1-9 | the fields of the corrected format |
| Time.FormatTimeCorrectedReadsBack | src/lib/utils/time.ts:1-9 | the corrected format reads back as the input, and past an hour its minutes field is two digits below 60 |
| Text.TrimStart | src/routes/api/import/+server.ts:109 | what is dropped from the front is all white space, and what is left starts with none |
| Text.TrimEnd | src/routes/api/import/+server.ts:109 | what is dropped from the back is all white space, and what is left ends with none |
| Text.Take | src/routes/api/import/+server.ts:109 | `substring(0, n)` is the prefix of length n, or the whole string when shorter |
| Text.Trim | src/routes/api/import/+server.ts:109 | what `trim` leaves has no white space at either end |
| Text.TrimIdempotent | src/routes/api/download/+server.ts:37-40 | trimming twice is trimming once |
| Text.TakeTrim | src/routes/api/room/+server.ts:13 | a shortened name is at most the given length, with no white space at either end |
| Text.TakeTrimIdempotent | src/routes/api/room/+server.ts:16 | shortening a shortened name changes nothing |
| Text.Split | src/routes/api/lyrics/+server.ts:14 | a split is never empty and no part holds the separator |
| Text.SplitJoin | src/routes/api/lyrics/+server.ts:14 | splitting a join recovers the parts when none holds the separator |
| Text.SplitNoSeparator | src/routes/api/lyrics/+server.ts:14 | a string without the separator splits into itself alone |
| Text.SplitAppend | src/routes/api/lyrics/+server.ts:14 | a separator after a part free of it splits off exactly that part |
| Text.ReplaceFirst | src/routes/api/import/+server.ts:136 | a string without the pattern is left unchanged; otherwise exactly one occurrence is replaced, so the length changes by the difference of the two lengths; a leading occurrence is the one replaced |
| Text.JoinSplit | src/lib/ctxmenu/shortcuts.ts:555-557 | joining the pieces of a split puts the separators back |
| Text.NatToString | src/lib/utils/format.ts:19-21 | decimal digits without a leading zero; one digit exactly below 10 |
| Text.ParseNatToString | src/lib/utils/format.ts:19-21 | a rendered number reads back as itself |
| Text.NatToStringInjective | src/lib/utils/format.ts:19-21 | different numbers render differently |
| ImportRoute.FromSpotify | src/routes/api/import/+server.ts:34-38 | a Spotify song becomes a track with its name, the artists joined, and no video id |
| ImportRoute.SpotifyTracks | src/routes/api/import/+server.ts:29-39 | at most one track per item |
| ImportRoute.SpotifyTracksKept | src/routes/api/import/+server.ts:29-39 | a track is pushed exactly when some item is a song that gives it |
| ImportRoute.SpotifyTracksAllSongs | src/routes/api/import/+server.ts:29-39 | with only songs, one track per item, in order |
| ImportRoute.FetchSpotify | src/routes/api/import/+server.ts:22-45 | a playlist exactly when one was found with a positive total |
| ImportRoute.FetchSpotifyPlaylist | src/routes/api/import/+server.ts:22-45 | the push loop computes the Spotify playlist |
| ImportRoute.OrElse | src/routes/api/import/+server.ts:60-62 | a truthy value wins, otherwise the fallback |
| ImportRoute.FetchYTMusic | src/routes/api/import/+server.ts:47-71 | a playlist exactly when one was found with a non-zero count and videos; one track per video carrying its id |
| ImportRoute.FirstResult | src/routes/api/import/+server.ts:73-80 | the first hit, there exactly when the search found something |
| ImportRoute.Resolve | src/routes/api/import/+server.ts:117-126 | a track's own id, else the first non-empty search hit |
| ImportRoute.Matched | src/routes/api/import/+server.ts:117-131 | at most one id per track |
| ImportRoute.Queries | src/routes/api/import/+server.ts:118-121 | at most one search per track |
| ImportRoute.ImportStep | src/routes/api/import/+server.ts:117-131 | one more track adds its resolved id or one unmatched, and its search when it has no id |
| ImportRoute.LastOf | src/routes/api/import/+server.ts:128 | the last id, there exactly when some id was added |
| ImportRoute.MatchedCount | src/routes/api/import/+server.ts:117-131 | every track is imported or counted unmatched |
| ImportRoute.OwnIdsNoSearch | src/routes/api/import/+server.ts:118-121 | tracks with their own ids are imported as those ids, in order, with no search |
| ImportRoute.NoHitsNothingMatched | src/routes/api/import/+server.ts:120-125 | tracks without ids or hits are all unmatched |
| ImportRoute.Cover | src/routes/api/import/+server.ts:133-138 | the cover comes only from the last id added and its first thumbnail, with the small size suffix removed |
| ImportRoute.CoverOfLast | src/routes/api/import/+server.ts:133-138 | the cover is read from the last id added |
| ImportRoute.Failure | src/routes/api/import/+server.ts:90-106 | a failure carries its error and counts of 0 |
| ImportRoute.ImportedMessage | src/routes/api/import/+server.ts:142 | the message starts "Imported " |
| ImportRoute.ImportedMessageReadsBack | src/routes/api/import/+server.ts:142 | the message is the words "Imported N out of T songs", and N and T read back as the imported and total counts |
| ImportRoute.Outcome | src/routes/api/import/+server.ts:140-146 | a success with imported plus unmatched equal to the total, which is the number of tracks |
| ImportRoute.ImportedRow | src/routes/api/import/+server.ts:109-138 | the row is named with the first 20 characters trimmed, holds the matched ids in order, and the cover of the last one |
| ImportRoute.ReplaceLast | src/routes/api/import/+server.ts:113-138 | replacing the row just added |
| ImportRoute.OutcomeCounts | src/routes/api/import/+server.ts:140-146 | the result built from the loop's counters is the outcome |
| ImportRoute.Importer.constructor | src/routes/api/import/+server.ts:82 | no rows, no searches |
| ImportRoute.Importer.CreatePlaylist | src/routes/api/import/+server.ts:109-111 | a new empty row at the end, whose index is returned |
| ImportRoute.Importer.AddSong | src/routes/api/import/+server.ts:127 | the id goes at the end of the row's songs |
| ImportRoute.Importer.SetCover | src/routes/api/import/+server.ts:136 | sets the row's cover |
| ImportRoute.Importer.SearchSong | src/routes/api/import/+server.ts:73-80 | one search, whose first hit is returned |
| ImportRoute.Importer.ImportTrack | src/routes/api/import/+server.ts:117-130 | the resolved id is added to the row; a search only for a track without its own id |
| ImportRoute.Importer.ImportTracks | src/routes/api/import/+server.ts:113-131 | the loop leaves the matched ids in the row, the counts, the last id, and one search per track without an id |
| ImportRoute.Importer.SetCoverFromLast | src/routes/api/import/+server.ts:133-138 | the cover is set only when the last id has a thumbnail |
| ImportRoute.Importer.ImportFromSource | src/routes/api/import/+server.ts:82-147 | "Unsupported source" or "Playlist not found or empty" with no row created, else the import |
| ImportRoute.Importer.ImportPlaylist | src/routes/api/import/+server.ts:109-146 | one row is added and the result is the outcome |
| ImportRoute.Importer.Post | src/routes/api/import/+server.ts:149-176 | 401 without a caller; then a 500 when the body does not parse as JSON or is `null`; 400 without source or playlist id; 404 for a failed import, else 200 with the imported row; the search log is stated in every case and grows only on success |
| RoomRoute.RoomName | src/routes/api/room/+server.ts:13 | the stored name is at most 20 characters with no white space at either end |
| RoomRoute.RoomNameIdempotent | src/routes/api/room/+server.ts:16 | a stored name is stored unchanged when given again |
| RoomRoute.NewRoom | src/routes/api/room/+server.ts:13 | the new room has the shortened name, the caller as host, password "" by default, no members, an empty queue, and is public unless told otherwise |
| RoomRoute.Renamed | src/routes/api/room/+server.ts:16 | the room with that id, if any, takes the name; the others stay |
| RoomRoute.RenamedIdempotent | src/routes/api/room/+server.ts:16 | renaming twice is renaming once |
| RoomRoute.Removed | src/routes/api/room/+server.ts:19 | the room with that id is gone; the others stay |
| RoomRoute.RemovedIdempotent | src/routes/api/room/+server.ts:32 | deleting twice is deleting once |
| RoomRoute.RoomApi.constructor | src/routes/api/room/+server.ts:5 | the given rooms, nothing sent |
| RoomRoute.RoomApi.Post | src/routes/api/room/+server.ts:5-23 | a body that does not parse as JSON or is `null` fails first, before the caller is checked; then 401 and no change without a caller; create, rename, or broadcast then delete by key; any other key succeeds and changes nothing |
| RoomRoute.RoomApi.Delete | src/routes/api/room/+server.ts:25-35 | a body that does not parse as JSON or is `null` fails first; then 401 and no change without a caller, else the room is deleted |
| RoomPage.EitherSuffices | src/routes/room/+page.server.ts:11 | hosting a room is enough, and so is being a member |
| RoomPage.FirstRoom | src/routes/room/+page.server.ts:10-14 | the first room, in list order, that the user hosts or belongs to, or none |
| RoomPage.LoadFor | src/routes/room/+page.server.ts:5-17 | "/" without a user; the first room the user is in; else the whole list |
| RoomPage.Load | src/routes/room/+page.server.ts:5-17 | the loop gives that answer |
| RoomPage.FirstRoomIs | src/routes/room/+page.server.ts:10-14 | the first match is at `i` when nothing before matches |
| RoomPage.FirstRoomNone | src/routes/room/+page.server.ts:10-14 | no match when no room matches |
| UserRoute.Check | src/routes/api/user/+server.ts:5-29 | 401 unless owner or dev; then a 500 exactly when the body does not parse as JSON or is `null`; success exactly when the id is given and known and the role is given and valid; an unknown user before a bad role |
| UserRoute.UnknownUserBeforeRole | src/routes/api/user/+server.ts:17-25 | an unknown user gets 404 whatever the role |
| UserRoute.UserApi.constructor | src/routes/api/user/+server.ts:26 | the given user table |
| UserRoute.UserApi.Post | src/routes/api/user/+server.ts:5-29 | answers by the guard chain, including a body that does not parse as JSON or is `null`, after the 401, and sets the role only on success |
| DownloadRoute.Sanitise | src/routes/api/download/+server.ts:46 | the length is kept, each forbidden character becomes "-", the others stay, none is left |
| DownloadRoute.SanitiseIdempotent | src/routes/api/download/+server.ts:46 | a safe name is kept, so sanitising twice is sanitising once |
| DownloadRoute.SafeName | src/routes/api/download/+server.ts:46 | "audio" for a missing or empty name, else the sanitised name |
| DownloadRoute.DownloadUrl | src/routes/api/download/+server.ts:37-40 | the trimmed string or first element; an empty array throws; anything else or "" gives none |
| DownloadRoute.Get | src/routes/api/download/+server.ts:5-59 | 401 then 400; after them the song lookup's throw escapes exactly when it throws; then 404; past those, the handler throws exactly when youtube-dl is not configured; "Failed to fetch song info" exactly when youtube-dl throws, gives an empty array, or the fetch throws; audio only past every check, with the sanitised name and "audio/mp4" as the default type |
| DownloadRoute.LoginFirst | src/routes/api/download/+server.ts:6-9 | without a login the answer is 401 whatever else is sent |
| LyricsRoute.Get | src/routes/api/lyrics/+server.ts:3-15 | 401 then 400; after them the request fails exactly when the lyrics lookup throws; 404 when it finds none; lyrics exactly when it finds some |
| LyricsRoute.LyricsRoundTrip | src/routes/api/lyrics/+server.ts:14 | the text splits back into the lines when none holds a line break |
| LyricsRoute.NoLinesIsEmptyText | src/routes/api/lyrics/+server.ts:14 | no lines is the empty text, which splits into one empty line |
| Hooks.HandleRefresh | src/hooks.server.ts:9-18 | a 307 to "/auth/refresh" exactly without an access token, with a refresh token, and off that path |
| Hooks.NoRedirectLoop | src/hooks.server.ts:13 | the refresh page is never redirected, so following the redirect does not redirect again |
| Hooks.Locals.constructor | src/hooks.server.ts:20 | empty locals |
| Hooks.Locals.SetLocals | src/hooks.server.ts:20-30 | the user only when the cookie is there, the database always |
| Hooks.Locals.SetYTMusic | src/hooks.server.ts:32-38 | a client for the request exactly when its initialisation succeeds; the hook fails otherwise; the user and database are untouched |
| Hooks.Locals.Handle | src/hooks.server.ts:40 | refresh, locals, then the client, in that order; a redirect stops the chain before anything is set; the request fails exactly when it is not redirected and the client fails to initialise |

## Left out

- The YouTube iframe player is not modelled: its construction, its state and volume listeners, the saved volume, the time-polling animation loop and `fetchLyrics`. Player commands and room calls are entries of an effect log, and `init` makes a player exist.
- `isRoomHost` and the room helpers the player and menus call are not part of this model. Whether the caller hosts is a boolean parameter.
- `Math.random` in `skip` and `previous` is a nondeterministic choice. The shuffle loop of `skip` never ends when every queue entry has the current song's id; the model returns a distinct `Stuck` outcome there, with no change.
- Player.PlayerStore.Play: the `fromQueue` and host details of the room calls are in the effect log, but the awaited timing of the calls is not.
- Sortable.Reorder: requires both indices inside the array. JavaScript `splice` with an index past the end would grow the array instead.
- `useSortable` and the click handlers of the context-menu entries are left out: they are UI effects (clipboard, navigation, toasts, fetches). Icons and the submenu's loading entry are left out too.
- Lower-casing and upper-casing are modelled for ASCII letters only. This is exact for the modifier words.
- Strings are sequences of Unicode characters, so lengths and truncation count characters, not UTF-16 code units. JavaScript's `substring(0, 20)` and `key.length === 1` count code units. For names with characters outside the Basic Multilingual Plane, such as emoji, the model keeps more characters than the source. It also never splits a surrogate pair as `substring` can. This affects RoomRoute.RoomName, ImportRoute.ImportedRow and Shortcuts.DisplayKey.
- `URLSearchParams` percent-encoding is not modelled. A proxied URL is its path and its ordered parameter list.
- Intl number formatting of non-integers in `formatCount`, and fractional seconds in `formatTime`, are left out: counts are integers and times natural numbers.
- The Supabase channel `Proxy` is left out. Objects are ordered lists of keys; JavaScript's ordering of integer-like keys first is not modelled.
- The clock is a parameter `now` of every cache operation.
- Promise plumbing in the request queue and the rate-limit handler is left out. A task's end is an explicit method call, and the task is an id.
- `executeBatch` and `executeWithRateLimit` only call `execute` once per task and gather the promises. They are not modelled separately.
- The rate-limit backoff wait and its `sleep` are floating-point timers and are left out; only the retry decision is modelled. Retries are unbounded in the source and appear here as one decision per failed attempt.
- RateLimit.AdjustmentsKeepBounds: needs a minimum of at least 0 and at most the maximum. The source does not check its configuration.
- The source never checks that `running` stays within the rate-limit handler's concurrency: halving the limit leaves running tasks above it. The model does not claim it as an invariant.
- The 500 answer of the thumbnail route's `catch` is left out: nothing in the modelled body throws.
- `createRoom`, `renameRoom`, `deleteRoom`, `getRooms`, `getUser`, `setUserRole`, `createPlaylist`, `addSongToPlaylist` and `setPlaylistCover` are not part of this model. The tables are maps or sequences updated as those names say. The defaults of a new room follow the room table's schema.
- The room API checks only that the caller is logged in: any caller may rename or close any room. The model follows the code, not a host-only rule.
- A request body without `value` or `value.name` makes the room route throw. This is not modelled.
- ImportRoute.Importer.ImportPlaylist: the remote calls in the import loop and in the cover step are not wrapped in a try/catch. These are `searchYTMusicSong`, `addSongToPlaylist`, `ytmusic.getSong` and `setPlaylistCover`. If one throws, `POST` fails with that error and the playlist keeps the songs added so far. The model treats these calls as always answering, so its `POST` ends in 200 or 404 once the guards pass.
- `playlistsCache.refresh`, which the playlist submenu calls, is not defined in src/lib/stores/playlistsCache.ts. The store index that exports the store is not part of this model, so the cache after the refresh, or the refresh throwing, is a parameter of Actions.LoadPlaylistSubmenu.
- `encodeURIComponent` and `decodeURIComponent` in the routes are not modelled.
- An error that escapes a route handler or a hook is a distinct answer here: `BodyUnreadable`, `LookupThrew`, `Thrown` or `Rejected`. SvelteKit turns it into a 500 page. The error's own message and that page are not modelled.
- The download route's `Content-Disposition` header is modelled by its file name only. The streamed body is modelled by its source URL.
- JWT verification of the user cookie is a parameter, and the YouTube Music client is a flag. Whether its `initialize` succeeds is a parameter too.
- The playlist and room ids the database assigns are parameters. The import's `playlistID` reaches only the fetches, whose answers are parameters.
- The created row's `createdAt` timestamp is not modelled.

## Findings

| source | as written | input that shows it | evidently intended | confidence | as-written member | corrected member |
|---|---|---|---|---|---|---|
| src/lib/utils/time.ts:5-6 | past 60 minutes the middle field is the total number of minutes | 3700 seconds gives "1:61:40" | the minutes within the hour, padded to two digits: "1:01:40" | not executed | Time.HoursFieldIsTotalMinutes | Time.FormatTimeCorrectedReadsBack |
