# A verified model of a Discord music bot's playback core

This project models the decision and state logic of a Discord music bot, written in Dafny. The bot plays audio for each guild (Discord server):

- Every guild gets one `PlayerManager`, its playback session.
- A session owns a FIFO queue of tracks, an optional current track, a `PlayerState` record of flags, and handles for the voice connection, the audio player and the audio resource.
- The session's operations are `play`, `repeatPlay`, `pause`, `stop`, `repeat`, `volume`, `addTrack` and `getNextTrack`. The audio player's status events (Idle, Playing, Paused) rewrite the phase flags and decide whether to advance the queue.

Around the session the model covers:

- how `getPlayerManager` looks up and reclaims sessions;
- how the music-channel list in the configuration is updated;
- `secondsToTime` and the `checkURL` dispatch order;
- the data behind the player, queue and command-overview embeds;
- the queue embed's page navigation;
- the playlist commands;
- the remote-control socket's handshake and events;
- the `/socket` command that stores a guild's token.

Layout, one module per source file:

| file | module | source |
|---|---|---|
| common.dfy | `Common` | the JavaScript built-ins the code relies on: `Array.prototype.slice`, `Math.ceil` of a division, number-to-text conversion, `filter`, `includes`, string concatenation in loops |
| interfaces.dfy | `Interfaces` | src/interfaces.ts (tracks, player state, config records) |
| player_manager.dfy | `Player` | src/classes/PlayerManager.ts |
| utils.dfy | `Utils` | src/utils/utils.ts |
| embeds.dfy | `Embeds` | src/utils/embeds.ts |
| queue_embed_handler.dfy | `QueueEmbed` | src/classes/QueueEmbedHandler.ts |
| playlist_manager.dfy | `Playlists` | src/classes/PlaylistManager.ts |
| socket_server.dfy | `Socket` | src/classes/SocketServer.ts |
| socket_command.dfy | `SocketCommand` | src/commands/socket.ts |

How the model is built:

- A class whose fields the source updates in place is a Dafny `class` with the same fields. This applies to `PlayerManager`, the static instance map (`Registry`), the parsed config (`Config`), `Playlist`, `PlaylistManager`, `QueueEmbedHandler` and `SocketServer`.
- Every state-changing method of `PlayerManager` ensures that its new `Snapshot()` equals a pure function of the old snapshot. For example, `Play` ensures `PlayNext`, `Stop` ensures `Stopped`, and the Idle handler `OnIdle` ensures `AfterIdle`.
- The contracts and lemmas about those functions state what the source promises. They also show that the session invariant `Wf` is kept by every operation. `Wf` requires that exactly one phase flag is set, that a connection exists exactly when `connected` is true, that repeat is only on with a current track, and that idletime is 0 while playing.
- Resource creation, the network and file access are not modelled. Whether a track's stream can be fetched is the parameter `fetched: Track -> bool`. A Spotify track never yields a resource, because `createResourceStream` has no branch for it. The time `Date.now()` is the parameter `now`. The regular-expression tests and the HEAD request of `checkURL` are given predicates (`UrlTests`). Config and playlist files are passed as lists, and their writes are not modelled.
- JavaScript's `slice`, `Math.ceil(n / k)`, `${number}` and `trim` are written out, negative or out-of-range indices included.

Where the behaviour is surprising, the model follows the code and proves the surprise:

- A playing session has idletime 0. So the ten-minute idle test in `getPlayerManager` passes whenever the member is in another channel, and a playing session is taken over (`Utils.ReclaimWhilePlaying`).
- `removeMusicChannelConfig` falls back to the placeholder only for a list of at most one entry. A longer list whose entries all belong to the removed guild becomes empty (`Utils.RemoveCanEmpty`).
- `updateMusicChannelConfig` with `old` set and no entry for the guild assigns index -1. That does not change the array, so the list stays as it was.
- The playlist pages slice `[(p-1)k, pk-1)`. Each page therefore shows at most k-1 items, and one item between two full pages is never shown (`Playlists.PageSliceSkipsLast`).
- The page buttons test the page slice for more than k items, so they are never shown (`Playlists.PageButtonsNeverShown`).
- The manage page counts its pages from the tracks it shows rather than from the playlist, so prev and next stay on page 1 (`Playlists.ManagePageStuck`).
- After removing a track, the ternary `currentPage > max ? currentPage-- : currentPage` assigns the old value back, so the page never changes (`Playlists.PlaylistManager.ManageSelect`).
- `repeatAll` is declared in `PlayerState` but never initialised or set, so it reads as false. The embed colour for repeat-all and the skip branch that would call `repeatAllPlay` are unreachable in a session.

## Model

| member | source | states |
|---|---|---|
| Common.CeilDiv | src/utils/embeds.ts:110 | `Math.ceil(n / k)` for naturals: the least r with r·k ≥ n, and 0 exactly for n = 0 |
| Common.JsSlice | src/utils/embeds.ts:105 | `Array.prototype.slice`: for 0 ≤ start ≤ end it is the clamped sub-sequence, no longer than end − start; for end ≤ start it is empty |
| Common.NatToString | src/utils/embeds.ts:113 | the decimal text of a natural: non-empty digits without a leading zero unless the number is 0 |
| Common.IntToString | src/utils/embeds.ts:80 | the decimal text of an integer: NatToString of it when it is not negative, otherwise '-' followed by NatToString of its magnitude |
| Common.ParseNatToString | src/utils/embeds.ts:108 | reading the decimal text back gives the number (the text loses nothing) |
| Common.NatToStringInjective | src/utils/embeds.ts:113 | distinct numbers have distinct texts |
| Common.HasInfix | src/utils/utils.ts:296 | a regular expression without anchors such as /list=/ holds exactly when the text occurs at some position |
| Common.Filter | src/utils/utils.ts:146 | `filter` keeps only elements the predicate accepts and never lengthens the list |
| Common.FilterMembers | src/utils/utils.ts:146 | every kept element comes from the list, and every accepted element of the list is kept |
| Common.FilterDropsOne | src/classes/PlaylistManager.ts:244 | filtering out the one rejected element removes exactly its position and keeps the rest in order |
| Common.JoinAppend | src/utils/embeds.ts:126-128 | the text built line by line from a + b is that of a followed by that of b |
| Player.Attempts | src/classes/PlayerManager.ts:132-138 | how many tracks one play() uses: at least one for a non-empty queue, every track before the last one tried is unplayable, and the last one tried is playable unless the queue ran out |
| Player.Enqueued | src/classes/PlayerManager.ts:202-204 | addTrack appends at the tail and changes nothing else |
| Player.NextTrack | src/classes/PlayerManager.ts:206-208 | getNextTrack returns the head and leaves the tail in order; on an empty queue it returns nothing and changes nothing |
| Player.AddThenNext | src/classes/PlayerManager.ts:202-208 | FIFO: taking the head after adding at the tail gives the old head, or the added track when the queue was empty |
| Player.PlayNext | src/classes/PlayerManager.ts:127-140 | play(): without a player or with an empty queue nothing changes; otherwise the tracks up to the first playable one are consumed, the last of them becomes current, and a resource is made for it at the current volume if it is playable; the invariant is kept |
| Player.PlayAllFail | src/classes/PlayerManager.ts:132-138 | when no track can be played the queue is emptied and the last track tried stays current |
| Player.Replayed | src/classes/PlayerManager.ts:142-153 | repeatPlay() changes at most the resource, to one for the current track at the current volume when there is a player and the track can be played, and otherwise changes nothing; it never touches the queue |
| Player.PauseRequest | src/classes/PlayerManager.ts:155-166 | pause() asks nothing without a player or current track, pause when not paused, unpause when paused |
| Player.Stopped | src/classes/PlayerManager.ts:168-175 | stop(): with a player, the queue is emptied, current cleared and repeat turned off; the connection is kept unless forced, when everything is reset to the constructor's values; without a player nothing changes |
| Player.RepeatToggled | src/classes/PlayerManager.ts:177-188 | repeat() flips exactly the repeat flag, and does so exactly when there is a player and a current track |
| Player.SetVolume | src/classes/PlayerManager.ts:190-199 | volume(n) sets the resource's volume and state.volume to n only while a resource exists; nothing else changes |
| Player.CreateConnection | src/classes/PlayerManager.ts:67-119 | an existing connection is kept unchanged; otherwise the channel is joined, connected set and a player created; afterwards a connection always exists |
| Player.AfterIdle | src/classes/PlayerManager.ts:85-97 | Idle: stopped and idle since now, volume and connection kept; with repeat the queue, current track and repeat flag are kept and the current track is replayed as repeatPlay() does; otherwise repeat is cleared, current is cleared, and play() advances a non-empty queue, taking the tracks up to the first playable one and making its resource |
| Player.AfterPlaying | src/classes/PlayerManager.ts:98-106 | Playing: only the phase flags change, to playing, and idletime becomes 0 |
| Player.AfterPaused | src/classes/PlayerManager.ts:107-115 | Paused: only the phase flags change, to paused, and idletime becomes now |
| Player.PauseTwice | src/classes/PlayerManager.ts:107-115 | pausing a playing session and then unpausing it, each followed by the reported status, restores the session |
| Player.StopThenIdle | src/classes/PlayerManager.ts:85-97 | the Idle event that follows stop(false) leaves a connected session with no track and an empty queue |
| Player.PlayerManager.constructor | src/classes/PlayerManager.ts:31-41 | a new manager has no connection, player, resource or track, an empty queue, stopped state and volume 50 |
| Player.PlayerManager.DestroyVoiceConnection | src/classes/PlayerManager.ts:44-65 | from any state, the manager is reset to exactly the constructor's state, so a second call changes nothing |
| Player.PlayerManager.CreateVoiceConnection | src/classes/PlayerManager.ts:67-119 | the new state is CreateConnection of the old one, and the returned connection is the existing one when there was one |
| Player.PlayerManager.Play | src/classes/PlayerManager.ts:127-140 | the recursive retry: the new state is PlayNext of the old one |
| Player.PlayerManager.RepeatPlay | src/classes/PlayerManager.ts:142-153 | the new state is Replayed of the old one |
| Player.PlayerManager.Pause | src/classes/PlayerManager.ts:155-166 | returns PauseRequest of the state and changes nothing |
| Player.PlayerManager.Stop | src/classes/PlayerManager.ts:168-175 | the new state is Stopped of the old one |
| Player.PlayerManager.Repeat | src/classes/PlayerManager.ts:177-188 | the new state is RepeatToggled of the old one |
| Player.PlayerManager.Volume | src/classes/PlayerManager.ts:190-199 | the new state is SetVolume of the old one |
| Player.PlayerManager.AddTrack | src/classes/PlayerManager.ts:202-204 | the new state is Enqueued of the old one |
| Player.PlayerManager.GetNextTrack | src/classes/PlayerManager.ts:206-208 | the result and new state are NextTrack of the old state |
| Player.PlayerManager.OnIdle | src/classes/PlayerManager.ts:85-97 | the new state is AfterIdle of the old one |
| Player.PlayerManager.OnPlaying | src/classes/PlayerManager.ts:98-106 | the new state is AfterPlaying of the old one |
| Player.PlayerManager.OnPaused | src/classes/PlayerManager.ts:107-115 | the new state is AfterPaused of the old one |
| Player.Registry.constructor | src/classes/PlayerManager.ts:16 | the instance map starts empty |
| Player.Registry.GetInstance | src/classes/PlayerManager.ts:17-23 | an existing manager is returned and the map is unchanged; otherwise a fresh manager in the initial state is stored for the guild; one manager per guild |
| Player.GetInstanceTwice | src/classes/PlayerManager.ts:17-23 | two lookups for the same guild return the same object and leave the other guilds' managers in place |
| Utils.Connect | src/utils/utils.ts:246-262 | getPlayerManager's policy: no voice channel gives the "must be in a voice channel" message with nothing changed; same channel or no connection gives the manager, connected there; another channel gives a reset session rejoined to the member's channel after ten idle minutes, otherwise the "different voice channel" message with the session untouched; success exactly when the session ends up in the member's channel |
| Utils.ReclaimWhilePlaying | src/utils/utils.ts:252-258 | a playing session in another channel is always reclaimed, losing its queue and current track |
| Utils.GetPlayerManager | src/utils/utils.ts:246-262 | the guild's manager is fetched or created, its new state and the result are Connect of its old state, and no other guild's manager changes |
| Utils.FindGuild | src/utils/utils.ts:122 | `findIndex` by guild id: the first matching index, or -1 when none matches |
| Utils.UpdatedChannels | src/utils/utils.ts:119-126 | a placeholder first entry is replaced in place; with `old` only the position `findIndex` gives may change, the first entry of the guild becomes the new entry, and the list is unchanged if there is none; otherwise the entry is appended |
| Utils.UpdateStoresEntry | src/utils/utils.ts:119-126 | after the update the new entry is in the list, unless `old` found no entry for the guild |
| Utils.RemovedChannels | src/utils/utils.ts:145-150 | with more than one entry the guild's entries go and every other entry stays in order; otherwise the list becomes the single placeholder |
| Utils.RemoveLeavesOthers | src/utils/utils.ts:145-150 | the list stays non-empty when some entry belongs to another guild |
| Utils.RemoveCanEmpty | src/utils/utils.ts:145-147 | two entries of the removed guild leave an empty list |
| Utils.Config.constructor | src/utils/utils.ts:118 | the parsed config holds the lists it was read with |
| Utils.Config.UpdateMusicChannel | src/utils/utils.ts:110-128 | the list becomes UpdatedChannels of the old one, or stays unchanged with failure reported when the list is empty (where the source throws); the tokens are untouched |
| Utils.Config.RemoveMusicChannel | src/utils/utils.ts:136-152 | the list becomes RemovedChannels of the old one; the tokens are untouched |
| Utils.Pad2 | src/utils/utils.ts:546 | two digits |
| Utils.SecondsToTime | src/utils/utils.ts:543-549 | the text is mm:ss exactly when the time of day is under an hour and hh:mm:ss otherwise, with colons every third character from the end and digits elsewhere; minutes and seconds read below 60, and hours, when shown, read between 1 and 23 |
| Utils.TimeRoundTrip | src/utils/utils.ts:543-549 | reading the text back gives the seconds modulo one day |
| Utils.CheckUrl | src/utils/utils.ts:288-314 | each result holds exactly when its test holds and every earlier test failed: search, then YouTube playlist before YouTube, Spotify, SoundCloud, media, not resolvable |
| Embeds.Decoration | src/utils/embeds.ts:39-49 | colour and repeat label: Off by default, Single with repeat, All with repeat-all overriding both, and paused overriding only the colour |
| Embeds.PlayerFields | src/utils/embeds.ts:52-87 | seven fields named in the fixed order, the first six inline and the last without `inline`, carrying the given values |
| Embeds.EmbedDataFromTrack | src/utils/embeds.ts:38-92 | title, or "unknown" for an empty one; the colour of Decoration; the track's thumbnail; seven fields |
| Embeds.PlayerEmbedFields | src/utils/embeds.ts:52-87 | the fields in order: requester, channel, thin space, duration as SecondsToTime, repeat label, volume, next title or a thin space; named in order, the first six inline |
| Embeds.PauseOnlyRecolours | src/utils/embeds.ts:39-49 | a paused embed differs from the unpaused one only in its colour, and unpaused the colour identifies the repeat label |
| Embeds.QueuePage | src/utils/embeds.ts:105 | a queue page shows the tracks from index 10·page to 10·page + 10, at most ten |
| Embeds.PageCount | src/utils/embeds.ts:110-111 | the footer's page count is the least count of ten-track pages that holds the queue, and at least 1 |
| Embeds.PagesUpToPrefix | src/utils/embeds.ts:105 | the first k pages together are the first 10·k tracks |
| Embeds.PagesCoverQueue | src/utils/embeds.ts:105-111 | the pages the footer counts show every queued track once, in queue order |
| Embeds.QueueLines | src/utils/embeds.ts:107-109 | one line per shown track, numbered from 1 |
| Embeds.AppendQueueLines | src/utils/embeds.ts:106-109 | the loop appends one numbered line per shown track, in order, after the header |
| Embeds.CreateQueueEmbed | src/utils/embeds.ts:102-115 | colour and title; a missing page is page 0; the description is the current title followed by the numbered lines of that page; the footer is "Page p+1 of" the page count |
| Embeds.CommandLines | src/utils/embeds.ts:126-128 | one `/name` line per command |
| Embeds.CreateCommandOverviewEmbed | src/utils/embeds.ts:123-132 | the header line followed by the command lines, in input order |
| Embeds.OverviewInOrder | src/utils/embeds.ts:126-128 | the overview of a + b is that of a followed by b's lines |
| QueueEmbed.LastPage | src/classes/QueueEmbedHandler.ts:47-48 | the page prev wraps to is the last page that starts inside the queue, or 0 for an empty queue |
| QueueEmbed.PrevPage | src/classes/QueueEmbedHandler.ts:44-50 | prev goes one back from a positive page and wraps to LastPage from page 0 |
| QueueEmbed.NextPage | src/classes/QueueEmbedHandler.ts:56-60 | next goes one on below ceil(len/10) − 1 and wraps to 0 otherwise |
| QueueEmbed.NavigationStaysInRange | src/classes/QueueEmbedHandler.ts:43-63 | from a page in range both buttons stay in range |
| QueueEmbed.NextFromAnyPage | src/classes/QueueEmbedHandler.ts:55-60 | next from any non-negative page lands in range, even after the queue has shrunk |
| QueueEmbed.PrevNextInverse | src/classes/QueueEmbedHandler.ts:43-63 | on a page in range, next undoes prev and prev undoes next |
| QueueEmbed.ShowButtons | src/classes/QueueEmbedHandler.ts:28 | the buttons are shown exactly when the queue needs more than one page |
| QueueEmbed.QueueEmbedHandler.constructor | src/classes/QueueEmbedHandler.ts:17-21 | keeps the manager and the starting page |
| QueueEmbed.QueueEmbedHandler.CreateEmbed | src/classes/QueueEmbedHandler.ts:23-32 | the embed of the current page of the manager's queue, and buttons exactly when ShowButtons holds |
| QueueEmbed.QueueEmbedHandler.Prev | src/classes/QueueEmbedHandler.ts:43-50 | the page becomes PrevPage of the old one |
| QueueEmbed.QueueEmbedHandler.Next | src/classes/QueueEmbedHandler.ts:55-60 | the page becomes NextPage of the old one |
| Playlists.Playlist.constructor | src/classes/PlaylistManager.ts:218-224 | a new playlist has the given guild, owner, name and description and no tracks |
| Playlists.FindPlaylist | src/classes/PlaylistManager.ts:232 | `find` by name and guild, as the first matching index or -1 |
| Playlists.NameTaken | src/classes/PlaylistManager.ts:214 | some stored playlist, in any guild, has the name |
| Playlists.FindName | src/classes/PlaylistManager.ts:214 | an index of a playlist with the name |
| Playlists.Without | src/classes/PlaylistManager.ts:244 | the filtered list holds no reference to the object, and every other playlist stays |
| Playlists.WithoutStoredOnce | src/classes/PlaylistManager.ts:244 | for a playlist stored once, exactly its position goes and the rest keep their order |
| Playlists.SaveAsWritten | src/classes/PlaylistManager.ts:154-155 | the save as written: only playlists with the edited one's name remain, then the edited one is appended |
| Playlists.SaveAsWrittenLosesOthers | src/classes/PlaylistManager.ts:170-171 | saving [a, b] after editing a gives [a, a] |
| Playlists.SaveReplacing | src/classes/PlaylistManager.ts:154-155 | the corrected save: every playlist with another name stays, and the edited one is last and the only one with its name |
| Playlists.SaveReplacingKeepsAll | src/classes/PlaylistManager.ts:170-171 | with distinct names, saving a stored playlist keeps the same set of playlists and only moves the edited one to the end |
| Playlists.PageSlice | src/classes/PlaylistManager.ts:181 | a page `(p-1)k .. pk-1` holds at most k − 1 items |
| Playlists.PageSliceSkipsLast | src/classes/PlaylistManager.ts:190 | between two full pages exactly one item, the k-th, is shown on neither |
| Playlists.PageButtonsNeverShown | src/classes/PlaylistManager.ts:183 | the test for page buttons (more than k items on the page) never holds |
| Playlists.WrapPrev | src/classes/PlaylistManager.ts:53-60 | prev from page 1 goes to the last page, otherwise one back |
| Playlists.WrapNext | src/classes/PlaylistManager.ts:62-68 | next from the last page goes to 1, otherwise one on |
| Playlists.WrapRoundTrip | src/classes/PlaylistManager.ts:53-72 | between 1 and the last page both buttons stay in range and undo each other |
| Playlists.ManagePageStuck | src/classes/PlaylistManager.ts:103-124 | the manage page counts one page from the tracks it shows, so its prev and next keep page 1 |
| Playlists.ListPage | src/classes/PlaylistManager.ts:53-72 | back sets page 1; prev and next wrap over ceil(n/10) pages |
| Playlists.QueuePlaylist | src/classes/PlaylistManager.ts:309-312 | the playlist's tracks are appended in order, and play() runs only for a stopped session |
| Playlists.PlaylistStartsInOrder | src/classes/PlaylistManager.ts:309-312 | a stopped session with an empty queue starts with the playlist's first track and queues the rest in order |
| Playlists.PlaylistManager.constructor | src/classes/PlaylistManager.ts:26-42 | the stored playlists, this guild's share of them, page 1 and nothing open |
| Playlists.PlaylistManager.Create | src/classes/PlaylistManager.ts:213-229 | refused exactly when some stored playlist has the name, with nothing changed; otherwise exactly one empty playlist of this guild and user is appended; the open playlist, the shown playlists and tracks and the page stay as they were |
| Playlists.PlaylistManager.Access | src/classes/PlaylistManager.ts:232-242 | no such playlist exactly when none of the name exists in this guild; not permitted exactly when it exists and the user neither owns it nor is an administrator |
| Playlists.PlaylistManager.Remove | src/classes/PlaylistManager.ts:231-248 | refused outcomes change nothing; otherwise exactly that playlist object is filtered out; the open playlist, the shown playlists and tracks and the page stay as they were |
| Playlists.PlaylistManager.ShowPlaylistPage | src/classes/PlaylistManager.ts:178-185 | closes the open playlist and shows the page slice of this guild's playlists |
| Playlists.PlaylistManager.List | src/classes/PlaylistManager.ts:250-265 | nothing is shown exactly when the guild has no playlists, and then the open playlist stays; otherwise the current page is shown with no playlist open; the page, the shown tracks and the stored lists never change |
| Playlists.PlaylistManager.ListNavigate | src/classes/PlaylistManager.ts:53-77 | the page becomes ListPage of the old one and that page is shown; the shown tracks and the stored lists stay |
| Playlists.PlaylistManager.ListSelect | src/classes/PlaylistManager.ts:79-89 | an index outside the shown list changes nothing; otherwise that playlist opens on page 1 with its first track page |
| Playlists.PlaylistManager.ShowManagePage | src/classes/PlaylistManager.ts:199-211 | shows the page slice of the open playlist's tracks |
| Playlists.PlaylistManager.Manage | src/classes/PlaylistManager.ts:267-285 | refused outcomes leave the open playlist and its shown tracks; otherwise the playlist opens and its current page is shown; the page, the stored lists and the shown playlists never change |
| Playlists.PlaylistManager.ManageNavigate | src/classes/PlaylistManager.ts:103-124 | the page wraps over ceil(|shown tracks|/25) pages and is shown; the open playlist, the stored lists and the shown playlists stay |
| Playlists.PlaylistManager.ManageAdd | src/classes/PlaylistManager.ts:126-157 | a resolved track is appended to the playlist and its last page shown; an unresolved one changes no track; the playlists are then saved with the corrected save; the guild's list and the shown playlists stay |
| Playlists.PlaylistManager.ManageSelect | src/classes/PlaylistManager.ts:161-174 | an index outside the shown tracks changes nothing; otherwise every track with that title is removed, the page stays the same and the playlists are saved with the corrected save; the guild's list and the shown playlists stay |
| Playlists.PlaylistManager.SaveEdited | src/classes/PlaylistManager.ts:154-155 | the stored playlists become SaveReplacing of the old ones |
| Playlists.PlaylistManager.Play | src/classes/PlaylistManager.ts:287-314 | a missing or empty playlist is refused with the session untouched; a refused session lookup is reported; otherwise the session is QueuePlaylist of the one getPlayerManager connected; no other guild's session changes |
| Playlists.JoinAndStart | src/classes/PlaylistManager.ts:304-312 | the lookup result is that of getPlayerManager; a refused lookup leaves the session as the lookup made it; a found one gets the tracks queued as QueuePlaylist says; other guilds' sessions are unchanged |
| Playlists.StartPlaylist | src/classes/PlaylistManager.ts:309-312 | the session becomes QueuePlaylist of its old state |
| Playlists.EnqueueTracks | src/classes/PlaylistManager.ts:309-311 | the tracks are appended to the queue in order and nothing else changes |
| Socket.FindToken | src/classes/SocketServer.ts:58 | `find` by guild id, as the first matching index or -1 |
| Socket.Handshake | src/classes/SocketServer.ts:47-73 | "Authentication Error" exactly when a value is missing; "Token not set" exactly when all are present and the guild has no entry; "Invalid Token" exactly when the entry's token differs; accepted exactly when it matches, with the guild and client recorded |
| Socket.SkipActions | src/classes/SocketServer.ts:104-108 | play is called exactly when neither repeat flag is set, repeatPlay exactly with repeat, repeatAllPlay exactly with repeat-all |
| Socket.EventEffect | src/classes/SocketServer.ts:92-129 | pause leaves the session as it is (only the player is asked); skip is repeatPlay with repeat and play otherwise; the invariant is kept |
| Socket.SkipCallsOne | src/classes/SocketServer.ts:102-109 | in a session skip makes exactly one call |
| Socket.SocketServer.constructor | src/classes/SocketServer.ts:18-20 | keeps the token list and the registry |
| Socket.SocketServer.SetTokens | src/classes/SocketServer.ts:181-183 | later handshakes are checked against the new list |
| Socket.SocketServer.Greet | src/classes/SocketServer.ts:77-83 | the guild's state and current track when it has a session, "disconnected" otherwise |
| Socket.SocketServer.HandleEvent | src/classes/SocketServer.ts:92-129 | an event for a guild without a session does nothing; otherwise the session becomes EventEffect of its old state, pause returns PauseRequest, and no other session changes |
| SocketCommand.TrimStart | src/commands/socket.ts:21 | the suffix left after leading white space, every removed character being white space |
| SocketCommand.TrimEnd | src/commands/socket.ts:21 | the prefix left before trailing white space, every removed character being white space |
| SocketCommand.Trim | src/commands/socket.ts:21 | an infix of the text that neither starts nor ends with white space, with only white space before it and after it |
| SocketCommand.TrimIdempotent | src/commands/socket.ts:21 | trimming twice is trimming once |
| SocketCommand.UpsertToken | src/commands/socket.ts:27-30 | the new entry is last and the only one for the guild, and the other guilds' entries are kept in their order |
| SocketCommand.HandshakeAfterSet | src/commands/socket.ts:27-32 | after the command, a handshake for the guild is accepted with exactly the stored token and refused as invalid with any other |
| SocketCommand.ReplaceToken | src/commands/socket.ts:27-30 | the find, the reassigning filter and the push of execute, done step by step on the list, compute UpsertToken |
| SocketCommand.Execute | src/commands/socket.ts:20-35 | the config's tokens become UpsertToken with the trimmed token; the socket server, when running, gets the same list; the reply names the trimmed token |

## Left out

- Discord I/O is not modelled: replies, message edits, collectors, modals and the embed and component builders. An embed is the value of the parts the code sets.
- Network and media access is not modelled: searching, fetching tracks, stream creation and the HEAD request in `checkURL`. Stream creation is the parameter `fetched`. The URL tests are the given predicates of `UrlTests`, because regular-expression matching is out of scope.
- File access is not modelled: reading and writing config.json and playlists.json, and command registration. Only the list logic after a read is modelled, and a failed read (which returns false) is left out.
- Socket.io and HTTP/HTTPS setup are not modelled, nor the `test` and `search` events.
- `repeatAll`, `shuffle`, `repeatAllPlay` and `isRepeatedAll` are called by the socket server but not defined in src/classes/PlayerManager.ts, so they are not modelled. `isRepeatedAll` is read as `state.repeatAll`, which is always false.
- Each PlaylistManager gets its own copy of the stored list. In the source, `require` caches playlists.json, so every instance starts from one shared array: `create` pushes into it, while `remove` and the save reassign the instance field. A playlist removed by one command therefore stays in the array later commands see. That sharing is not modelled.
- `PlaylistManager.playSocket` is not modelled: it is not part of src/classes/PlaylistManager.ts.
- `config.websocket` is not a field of the source's `Config`. The model keeps the token list directly as `Config.guildTokens`.
- Each operation is treated as atomic. The asynchronous interleaving at `await` points is not modelled.
- The player embed handler's embed updates and the Disconnected handler of the voice connection are not modelled: they are calls into Discord.
- Player.PlayerManager.Volume: the gain `n / 100` is floating point; only the integer `state.volume` and the resource's percent are modelled.
- Utils.SecondsToTime: whole seconds only; fractional and negative durations are not modelled. Nor are durations from 253402300800 seconds (the year 10000) on, where `toISOString()` writes a six-digit year and `substr(11, 8)` picks other characters, or past 8.64e15 milliseconds, where it throws.
- Playlists.PlaylistManager.Play: the member fetch that can fail and silently end the command is not modelled, and neither is the lookup of the music-channel message.
- Playlists.PlaylistManager.ManageAdd: the modal, URL check and track download are replaced by the already resolved track (or none). The save runs whether or not a track was added, as in the source.
- Playlists.PlaylistManager.SaveEdited: saves in the corrected form SaveReplacing (the row under "## Findings"). The source's filter keeps only the playlists with the edited name, which SaveAsWritten models and SaveAsWrittenLosesOthers shows losing every other playlist; the class does not reproduce that loss.
- Playlists.PlaylistManager.ManageAdd: the save after the edit is the corrected SaveEdited, not the source's filter at src/classes/PlaylistManager.ts:154-155, so the other stored playlists are kept where the source drops them.
- Playlists.PlaylistManager.ManageSelect: the save after the removal is the corrected SaveEdited, not the source's filter at src/classes/PlaylistManager.ts:170-171, so the other stored playlists are kept where the source drops them.
- SocketCommand.Execute: the eight-character minimum of the token option is enforced by Discord before `execute` runs, and is not modelled.

## Findings

| source | as written | input that shows it | evidently intended | confidence | as-written member | corrected member |
|---|---|---|---|---|---|---|
| src/classes/PlaylistManager.ts:154-155, 170-171 | `this.playlists.filter((p) => p.name === this.currentPlaylist!.name)` then `push(currentPlaylist)`: keeps only playlists with the edited one's name, then appends it again | stored playlists [a, b] with different names, a edited: the saved list is [a, a], so b is deleted from playlists.json and a is duplicated | `filter((p) => p.name !== ...)` then push: every other playlist stays and the edited one replaces its stored copy | not executed | Playlists.SaveAsWritten, Playlists.SaveAsWrittenLosesOthers | Playlists.SaveReplacing, Playlists.SaveReplacingKeepsAll |
