# GundraBot music core in Dafny

GundraBot is a Discord bot that plays YouTube audio in voice channels. This
project models its core and proves properties of the model:

- the per-guild music state of `MusicManager`. Each guild has a lock that
  runs the operations one at a time, in the order they were called. Each
  guild also has a track queue, a current track, a voice connection and an
  audio player.
- the yt-dlp side of `YoutubeMusicPlayer` and `MusicManager`:
  - turning a query into yt-dlp's input;
  - reading yt-dlp's JSON into a track;
  - picking a direct audio stream;
  - choosing between the pipe and direct-URL strategies;
  - ffmpeg's argument lists.
- the structured logger:
  - level, destination and path normalisation;
  - the level filter, the console tag and the file entry;
  - child loggers.
- the periodic yt-dlp cookie refresher: its settings from the environment
  and its guard against running twice at once.
- the now-playing embed of a guild, and the provider that keeps one manager
  per guild.
- the `/play`, `/pause`, `/resume` and `/skip` handlers, each an ordered
  chain of checks that ends in one reply or in a call to the manager.

Modules, one file each:

| file | module | what it holds |
|---|---|---|
| `option.dfy` | `Optional` | `Option`, used for absent values |
| `text.dfy` | `Text` | JavaScript's `trim`, ASCII `toLowerCase`, `includes` |
| `js.dfy` | `Js` | JSON values as JavaScript sees them, `??`, optional member access |
| `ytdlp.dfy` | `YtDlp` | resolution, stream picking, strategy, ffmpeg arguments |
| `session.dfy` | `Session` | a guild's state and lock, one turn of the lock, traces of turns |
| `manager.dfy` | `Music` | the `MusicManager` class over the map of guild states |
| `logger.dfy` | `Logging` | the logger |
| `cookies.dfy` | `Cookies` | the cookie refresher |
| `embed.dfy` | `Embeds` | `MusicEmbed` |
| `provider.dfy` | `Provider` | `GuildManagerProvider` |
| `commands.dfy` | `Commands` | the four slash-command handlers |

The lock's promise chain is modelled by its sequential view: each guild
holds a FIFO of pending turns. A public operation only appends its body as a
turn. `Session.Run` takes the head turn and runs it to completion, and
`MusicManager.RunTurn` applies that step to the map. `void this.playNext(id)`
appends an advance turn at the tail. Calls into the voice library and the
events the manager emits are recorded as effects, in order. What the outside
world will answer is carried by the turn: whether the connection reaches
Ready, and what yt-dlp resolves.

`Session.Run` and `Session.RunTurns` take a `Variant`. `AsWritten` is the
program as it stands, and `MusicManager` runs it. `Corrected` differs in
two places, each the correction of a finding below:
- an enqueue queues the advance only when none is queued yet;
- `leave` refuses only turns whose caller awaits the refusal.

The lemmas that take the variant as a parameter hold for both.

## Model

| member | source | states |
|---|---|---|
| `Js.CoalesceKeeps` | src/music/YoutubeMusicPlayer.ts:53-54 | `a ?? b` is `a` unless `a` is null or undefined; the result is nullish only when both are; an empty string is kept |
| `Text.LeadingSpace` | src/cookieRefresher.ts:22 | the length of the whitespace run at the start: all of it is whitespace and the character after it is not |
| `Text.TrailingSpace` | src/cookieRefresher.ts:14 | the length of the whitespace run at the end: all of it is whitespace and the character before it is not |
| `Text.TrimIsInnerSlice` | src/logging/logger.ts:66-70 | `trim` returns the slice of its input that starts right after the leading whitespace |
| `Text.TrimDropsOnlySpace` | src/logging/logger.ts:66-70 | everything `trim` drops, before and after the slice it keeps, is whitespace |
| `Text.TrimHasNoOuterSpace` | src/logging/logger.ts:66-70 | the result of `trim` neither starts nor ends with whitespace |
| `Text.TrimIdempotent` | src/logging/logger.ts:66-70 | trimming twice is trimming once |
| `Text.TrimOfTrimmed` | src/cookieRefresher.ts:14 | text with no whitespace at either end is left unchanged by `trim` |
| `Text.ToLower` | src/cookieRefresher.ts:14 | lower-casing keeps the length and maps each character on its own |
| `Text.ContainsAt` | src/commands/play.ts:44-61 | `includes` holds exactly when the text occurs at some index |
| `Text.ContainsInfix` | src/commands/play.ts:44-61 | a text contains every text placed inside it |
| `YtDlp.NewPlayerConfig` | src/music/YoutubeMusicPlayer.ts:11-19 | piping is on unless the option is `false`; the format defaults to Opus-first; the cookies path is kept |
| `YtDlp.YtDlpInputKeepsQuery` | src/music/YoutubeMusicPlayer.ts:35-36 | a URL goes to yt-dlp unchanged; anything else goes as `ytsearch1:` followed by the query |
| `YtDlp.ResolveOptions` | src/music/YoutubeMusicPlayer.ts:39-47 | the metadata call asks for a single JSON object, no playlist, a one-result default search and the configured format; it passes cookies exactly when the path is a non-empty string |
| `YtDlp.PipeDownloadOptions` | src/music/YoutubeMusicPlayer.ts:114-120 | the download writes to stdout in the configured format; it passes cookies exactly when the path is a non-empty string |
| `YtDlp.FirstObjectIndex` | src/music/YoutubeMusicPlayer.ts:237 | the index of the first truthy object, or the length when there is none |
| `YtDlp.FirstSearchEntry` | src/music/YoutubeMusicPlayer.ts:232-238 | null without an `entries` array or when it holds no object; otherwise the first object in it |
| `YtDlp.SourceIsFirstEntry` | src/music/YoutubeMusicPlayer.ts:49-50 | metadata comes from the first search entry when there is one, else from the top-level output |
| `YtDlp.Candidates` | src/music/YoutubeMusicPlayer.ts:264-265 | only formats with a string URL and an audio codec other than "none" are kept, and each comes from the input |
| `YtDlp.CandidatesAppend` | src/music/YoutubeMusicPlayer.ts:264-265 | the filter works element by element: filtering a concatenation concatenates the filtered parts, so it keeps the input's order and every qualifying format as often as it occurs |
| `YtDlp.InsertByAbr` | src/music/YoutubeMusicPlayer.ts:266 | one insertion step of the sort adds the element and keeps the rest: multisets add up |
| `YtDlp.SortByAbrDesc` | src/music/YoutubeMusicPlayer.ts:266 | the sort is a permutation of the candidates |
| `YtDlp.BestIndex` | src/music/YoutubeMusicPlayer.ts:266 | the reference for the sort's head: the earliest candidate of greatest bitrate |
| `YtDlp.InsertByAbrHead` | src/music/YoutubeMusicPlayer.ts:266 | an element goes in front exactly when its bitrate is at least the current head's |
| `YtDlp.SortHeadIsBest` | src/music/YoutubeMusicPlayer.ts:266 | the head of the stable descending sort is the earliest candidate of greatest bitrate |
| `YtDlp.PickAudioUrlAndCodec` | src/music/YoutubeMusicPlayer.ts:248-274 | the three tiers in order: a non-empty top-level URL, then the first requested format with a string URL, then the best audio format; null exactly when none applies; a null codec becomes undefined |
| `YtDlp.PickFromFormats` | src/music/YoutubeMusicPlayer.ts:261-271 | tier 3 picks the earliest audio candidate of greatest bitrate |
| `YtDlp.EarliestBestExists` | src/music/YoutubeMusicPlayer.ts:264-270 | when some format is an audio candidate, some index of `formats` holds the earliest candidate of greatest bitrate |
| `YtDlp.BestCandidateIsEarliestBest` | src/music/YoutubeMusicPlayer.ts:264-270 | the head of the sorted candidates is the format at the index that holds the earliest candidate of greatest bitrate, counted in `formats` itself |
| `YtDlp.PickIsEarliestBestFormat` | src/music/YoutubeMusicPlayer.ts:261-271 | tier 3 returns the URL and codec of `formats[k]`, where `k` is the index of the earliest candidate of greatest bitrate: a tie goes to the format listed first |
| `YtDlp.TrackFromSource` | src/music/YoutubeMusicPlayer.ts:53-71 | title is `title ?? fulltitle ?? "Unknown title"`; the page URL is `webpage_url ?? original_url ?? query`; neither is nullish; the audio URL and codec are the pick's, or absent and undefined without one |
| `YtDlp.TitleFallback` | src/music/YoutubeMusicPlayer.ts:53-54 | an empty title is kept; "Unknown title" appears only when a title field says so or both are missing; the query is the page URL only when both URL fields are missing |
| `YtDlp.DirectTitleFallback` | src/music/MusicManager.ts:227-253 | the manager's own resolver reads title and page URL from the top-level output, with the same fallbacks as the player |
| `YtDlp.DirectSkipsEntries` | src/music/MusicManager.ts:227-253 | without a search entry the manager's resolver equals the player's; for a `ytsearch1:` result that has a titled entry and no top-level fields, the player takes the entry's title while the manager gives "Unknown title" and the query as page URL |
| `YtDlp.ThumbnailFallback` | src/music/YoutubeMusicPlayer.ts:57-59 | the thumbnail is `thumbnail`, else the URL of the last element of `thumbnails`, else absent, also when `thumbnails` is an empty array |
| `YtDlp.ChooseStrategy` | src/music/YoutubeMusicPlayer.ts:88-101 | the direct URL is used exactly when piping is off and the track has a non-empty audio URL; the pipe reads the page URL |
| `YtDlp.ManagerAlwaysPipes` | src/music/MusicManager.ts:256-267 | with `PIPE_FROM_YTDLP` fixed to true the manager always pipes the page URL |
| `YtDlp.PipeArgsShape` | src/music/YoutubeMusicPlayer.ts:123-146 | in the pipe strategy ffmpeg reads stdin with video dropped and always re-encodes: libopus at 96k into Ogg, 20 arguments, never `copy` |
| `YtDlp.DirectArgsShape` | src/music/YoutubeMusicPlayer.ts:164-220 | ffmpeg reads the audio URL with video dropped and writes Ogg; an Opus codec is copied, any other codec is re-encoded with libopus at 96k |
| `YtDlp.OpusDetection` | src/music/YoutubeMusicPlayer.ts:165 | a codec counts as Opus exactly when its lower-cased name contains "opus"; a missing codec is not Opus |
| `Session.ForceStop` | src/music/MusicManager.ts:94-100 | stopping a playing or paused player makes it idle and queues one advance behind the waiting turns; an idle player is left alone |
| `Session.EnqueueTurnAppends` | src/music/MusicManager.ts:110-131 | a successful enqueue appends exactly the resolved track and returns it; as written it queues the advance whenever nothing is current, even when one is already queued (as corrected, only when none is); an existing connection is only re-subscribed and a missing one joined once |
| `Session.EnqueueTurnFails` | src/music/MusicManager.ts:186-208 | a connection timeout or a failed resolution leaves the queue and the pending turns alone; a joined connection stays stored |
| `Session.AdvanceTurnPops` | src/music/MusicManager.ts:210-225 | the advance removes exactly the head of the queue, makes it current, plays it and then emits one `trackStart`; on an empty queue it only clears the current track |
| `Session.LeaveTurnClears` | src/music/MusicManager.ts:160-184 | `leave` deletes the entry, stops, destroys a connection if any, then emits `disconnect`; what it leaves behind is empty, idle, disconnected and closed; the turns still waiting, plus the advance that stopping a playing or paused player queues, are refused (as corrected, only those a caller awaits) |
| `Session.PlayerTurns` | src/music/MusicManager.ts:133-158 | skip, pause and resume touch only the player; only a skip of a playing or paused track queues the advance |
| `Session.LeftBehindRefusesAll` | src/music/MusicManager.ts:44-57 | the state `leave` leaves behind has a closed lock, and each turn still chained on it fails with "GuildLock is closed." in turn, still releases the lock, and has no effect |
| `Session.AwaitedKeepsCallers` | src/music/MusicManager.ts:94-105 | the refusals a caller awaits are exactly the waiting turns other than the advance routine, which `void` starts without awaiting |
| `Session.AsWrittenLeaveLeavesUnhandled` | src/music/MusicManager.ts:164-180 | as written, `leave` of a playing track with nothing else waiting refuses the advance its own stop queued, and no caller awaits that refusal |
| `Session.CorrectedLeaveRefusesOnlyCallers` | src/music/MusicManager.ts:164-180 | as corrected, every refusal of `leave` reaches a caller that awaits it, and those callers are refused exactly as in the program as written |
| `Session.EnqueueKeepsOrder` | src/music/MusicManager.ts:110-131 | in either variant, after an enqueue turn, the tracks it announces followed by the queue are the old queue followed by the accepted track; it adds no `leave` turn |
| `Session.AdvanceKeepsOrder` | src/music/MusicManager.ts:210-225 | after an advance turn, the tracks it announces followed by the new queue are the old queue; the pending turns are kept |
| `Session.StepKeepsOrder` | src/music/MusicManager.ts:123 | one turn other than `leave` keeps announced tracks followed by the queue equal to the old queue followed by the accepted track |
| `Session.RunTurnsKeepsOrder` | src/music/MusicManager.ts:44-57 | in either variant, over any run of turns without `leave`, the tracks announced followed by the queue are the old queue followed by the accepted tracks, in the order the enqueues ran |
| `Session.EnqueuesAnswerInOrder` | src/music/MusicManager.ts:119-130 | on a connected guild, the enqueue callers get their resolved tracks in submission order |
| `Session.ConcurrentEnqueuesKeepOrder` | src/music/MusicManager.ts:110-131 | enqueues submitted together are played or queued in submission order |
| `Session.SkipStartsNext` | src/music/MusicManager.ts:133-140 | skipping a playing track makes the next one current and announces it exactly once |
| `Session.PauseResumeKeepsTrack` | src/music/MusicManager.ts:142-158 | pause then resume leaves the queue and the current track as they were and announces nothing |
| `Session.AsWrittenCutsFirstTrack` | src/music/MusicManager.ts:125-127 | as written, two enqueues waiting on a connected idle guild, which starts out satisfying the single-player invariant, each queue an advance: after three turns the first track plays, and the fourth turn calls `play` for the second on that playing player and announces it |
| `Session.FreshIsSinglePlayer` | src/music/MusicManager.ts:60-72 | a new guild state satisfies the single-player invariant |
| `Session.ForceStopKeepsSinglePlayer` | src/music/MusicManager.ts:94-100 | stopping the player keeps the single-player invariant |
| `Session.RunKeepsSinglePlayer` | src/music/MusicManager.ts:210-225 | with the corrected enqueue, every turn keeps at most one advance pending (none while a track plays), and `play` is only ever called on an idle player |
| `Session.IntendedPlaysFirstTrack` | src/music/MusicManager.ts:110-131 | as corrected, the same two enqueues play the first track, announce it once and leave the second queued with nothing pending |
| `Music.StateOf` | src/music/MusicManager.ts:88-108 | an existing guild keeps its state; a new one starts empty, idle, disconnected and open |
| `Music.Submit` | src/music/MusicManager.ts:44-49 | submitting appends the turn to that guild's lock only |
| `Music.RunKeepsOpen` | src/music/MusicManager.ts:179-180 | the lock is closed only in the turn that removes the entry, so no closed lock stays in the map |
| `Music.MusicManager.constructor` | src/music/MusicManager.ts:74-86 | no guild states; piping on; Opus-first format |
| `Music.MusicManager.EnqueueFromQuery` | src/music/MusicManager.ts:110-131 | creates the guild's state if needed and submits the enqueue body |
| `Music.MusicManager.Skip` | src/music/MusicManager.ts:133-140 | nothing without a state; otherwise a skip turn is submitted |
| `Music.MusicManager.Pause` | src/music/MusicManager.ts:142-149 | nothing without a state; otherwise a pause turn is submitted |
| `Music.MusicManager.Resume` | src/music/MusicManager.ts:151-158 | nothing without a state; otherwise a resume turn is submitted |
| `Music.MusicManager.Leave` | src/music/MusicManager.ts:160-184 | nothing without a state; otherwise a leave turn is submitted |
| `Music.MusicManager.RunTurn` | src/music/MusicManager.ts:44-57 | the head turn runs as written: its caller's outcome, the effects appended to the log, the guild's new state, or its removal after `leave` |
| `Music.MusicManager.TrackEnds` | src/music/MusicManager.ts:94-100 | a player that goes idle on its own queues the advance |
| `Music.MusicManager.PlayerFails` | src/music/MusicManager.ts:102-105 | a player error emits `error` and queues the advance |
| `Music.MusicManager.ConnectionDrops` | src/music/MusicManager.ts:205-207 | a dropped connection emits `disconnect` only once it had reached Ready, and changes nothing |
| `Logging.NormalizeLevel` | src/logging/logger.ts:23-33 | each level name stands for its level; anything else is "info" |
| `Logging.NormalizeLevelName` | src/logging/logger.ts:23-33 | normalising a level's name gives the level back |
| `Logging.AdmitsIsThreshold` | src/logging/logger.ts:14-19 | the filter is a threshold over a total order: errors always pass, debug only at debug, a lower threshold drops nothing more |
| `Logging.NormalizeDestination` | src/logging/logger.ts:35-44 | exactly the three destination names are recognised |
| `Logging.NormalizeFilePath` | src/logging/logger.ts:66-70 | absent, empty and blank paths are absent; others are trimmed |
| `Logging.NormalizeFilePathIdempotent` | src/logging/logger.ts:66-70 | normalising a path twice is normalising it once |
| `Logging.TagFromNone` | src/logging/logger.ts:46-64 | there is no tag exactly when no tag key holds a non-blank string |
| `Logging.TagFromIsFirst` | src/logging/logger.ts:46-64 | the tag is the first qualifying key's value, trimmed and in braces |
| `Logging.NoTagWithoutKeys` | src/logging/logger.ts:49 | an empty base gives no tag |
| `Logging.FormatTag` | src/logging/logger.ts:48-64 | the loop returns the tag of the first qualifying key |
| `Logging.EntryForIsUnique` | src/logging/logger.ts:153-178 | the description of the file entry fixes it completely |
| `Logging.BuildLogEntry` | src/logging/logger.ts:153-178 | `ts` and `level`, overwritten by the base, overwritten by `msg` (a leading string) and `args` (the rest, or all when the first is not a string) |
| `Logging.NewLogger` | src/logging/logger.ts:193-203 | each option falls back to its environment variable when absent; an unknown destination is "both" with a path and "console" without; the file stream exists exactly when a file is wanted and a path is known |
| `Logging.SilentOnlyForFileWithoutPath` | src/logging/logger.ts:197-202 | a logger writes nowhere exactly when its destination is "file" and it has no path |
| `Logging.ChildInherits` | src/logging/logger.ts:221-228 | a child keeps the parent's level and destination and sees `meta` over the parent's base; a parent's path is kept, and a parent without one makes the child fall back to `LOG_FILE` |
| `Logging.Prefix` | src/logging/logger.ts:235-251 | the console prefix starts with the bracketed timestamp and level |
| `Logging.Write` | src/logging/logger.ts:230-257 | nothing below the level; otherwise the console line first (on the level's stream, with tag and, for errors, the caller location) when the console is wanted, and the file entry last when there is a file stream |
| `Cookies.ParseBoolean` | src/cookieRefresher.ts:12-18 | trimmed and lower-cased, "true", "1" and "yes" are true and "false", "0" and "no" are false |
| `Cookies.ParseBooleanIgnoresSpace` | src/cookieRefresher.ts:14 | surrounding whitespace does not change a flag's reading |
| `Cookies.LeadingDigits` | src/cookieRefresher.ts:22 | the longest digit prefix, as `parseInt` reads it |
| `Cookies.ParseInt` | src/cookieRefresher.ts:22 | NaN (absent) exactly when no digit follows the leading whitespace and sign |
| `Cookies.ParsePositiveInt` | src/cookieRefresher.ts:20-25 | absent for absent or empty input; otherwise the positive integer `parseInt` reads from the trimmed text, or absent when it is not positive |
| `Cookies.DecimalValueOfDecimal` | src/cookieRefresher.ts:22 | reading a numeral gives its number back |
| `Cookies.LeadingDigitsStopsAtNonDigit` | src/cookieRefresher.ts:22 | `parseInt` stops at the first non-digit |
| `Cookies.TrimEndAfterWord` | src/cookieRefresher.ts:22 | trimming the end of a word followed by text keeps the word |
| `Cookies.ParsePositiveIntReadsDecimal` | src/cookieRefresher.ts:20-25 | the numeral of a positive number, followed by text not starting with a digit, reads as that number |
| `Cookies.IntervalMinutes` | src/cookieRefresher.ts:43-46 | the configured interval, or 360 without one, never below 5 |
| `Cookies.Configure` | src/cookieRefresher.ts:27-51 | disabled exactly when the cookies path is blank or the flag reads false, with the matching log line; otherwise the trimmed path, the clamped interval in minutes and milliseconds, and the trimmed URL or the default |
| `Cookies.OnlyFalseDisables` | src/cookieRefresher.ts:34-38 | with cookies set, only a flag that reads false disables the refresher |
| `Cookies.Refresher.constructor` | src/cookieRefresher.ts:50-51 | both flags start lowered and the start line is logged |
| `Cookies.Refresher.RefreshOnce` | src/cookieRefresher.ts:58-70 | a refresh starts exactly when the refresher is neither stopped nor already running; starting raises the flag and runs yt-dlp with the cookies file |
| `Cookies.Refresher.RefreshSettles` | src/cookieRefresher.ts:71-84 | one log line for success or failure, and the running flag is lowered either way |
| `Cookies.Refresher.Stop` | src/cookieRefresher.ts:100-104 | sets the stopped flag and logs |
| `Embeds.ThumbnailFor` | src/music/MusicEmbed.ts:34-38 | the image is `raw.thumbnail.url`, else `thumbnailUrl`, else the empty string |
| `Embeds.WithSong` | src/music/MusicEmbed.ts:25-41 | the first field shows the title (a missing one is created as "Now playing:"), its name and the later fields are kept, and the image is the song's thumbnail |
| `Embeds.LastSongWins` | src/music/MusicEmbed.ts:25-41 | showing two songs in a row is showing the last one |
| `Embeds.MusicEmbed.constructor` | src/music/MusicEmbed.ts:16-19 | the given interaction and the template |
| `Embeds.MusicEmbed.SetInteraction` | src/music/MusicEmbed.ts:21-23 | replaces the interaction and keeps the embed |
| `Embeds.MusicEmbed.SongToEmbed` | src/music/MusicEmbed.ts:25-41 | the embed becomes `WithSong` of the old one and is returned |
| `Embeds.MusicEmbed.UpdateCurrentEmbedWithSong` | src/music/MusicEmbed.ts:47-62 | refused, with the embed untouched, without an interaction or when it is neither deferred nor replied; otherwise the updated embed is sent to that interaction |
| `Embeds.MusicEmbed.Shutdown` | src/music/MusicEmbed.ts:64-69 | the reply is deleted only when there is one; the interaction is dropped either way |
| `Provider.GuildManagerProvider.constructor` | src/di/GuildManagerProvider.ts:11-17 | no managers |
| `Provider.GuildManagerProvider.Get` | src/di/GuildManagerProvider.ts:19-40 | a known guild gets its stored manager, with a given interaction handed over; an unknown guild gets exactly one new manager with that interaction, which is stored |
| `Provider.GuildManagerProvider.Reset` | src/di/GuildManagerProvider.ts:42-48 | for a known guild the manager leaves and only its entry is removed; nothing otherwise |
| `Provider.GuildManagerProvider.Has` | src/di/GuildManagerProvider.ts:50-52 | true exactly when the guild has a manager |
| `Provider.GuildManagerProvider.DisposeAll` | src/di/GuildManagerProvider.ts:54-56 | every manager is forgotten |
| `Provider.GetIsStable` | src/di/GuildManagerProvider.ts:19-40 | two `get` calls give the same manager and create at most one |
| `Commands.FirstFailing` | src/commands/pause.ts:20-39 | the first check that fails, or none when all pass |
| `Commands.Chain` | src/commands/pause.ts:20-42 | the reference shape of a handler: the first failing check's reply, or the action |
| `Commands.Play` | src/commands/play.ts:20-82 | nothing outside a cached chat command; the manager is fetched first; the trimmed query is enqueued exactly when the caller is in voice and the text is no URL or a YouTube URL |
| `Commands.PlayIsChain` | src/commands/play.ts:29-82 | `play` is the chain "in voice, then YouTube or no URL", with "Loading…" before the enqueue and the result edited in |
| `Commands.HostCheckIgnoresCase` | src/commands/play.ts:44-61 | the host check ignores letter case |
| `Commands.EndsWithLower` | src/commands/play.ts:44-61 | a host ending in a lower-case name contains it once lower-cased |
| `Commands.YouTubeHostsPass` | src/commands/play.ts:44-61 | youtube.com, its subdomains and youtu.be pass the host check |
| `Commands.LowerOfLower` | src/commands/play.ts:44-61 | lower-casing text without capitals changes nothing |
| `Commands.LowerConcat` | src/commands/play.ts:44-61 | lower-casing distributes over concatenation |
| `Commands.Pause` | src/commands/pause.ts:12-49 | nothing outside a cached guild; the player is paused exactly when the caller is in voice, the bot connected and a song playing |
| `Commands.PauseIsChain` | src/commands/pause.ts:20-42 | `pause` is the chain "in voice, connected, playing" |
| `Commands.Resume` | src/commands/resume.ts:12-50 | nothing outside a cached guild; the player is resumed exactly when the caller is in voice, the bot connected, tracks exist and the player is paused |
| `Commands.ResumeIsChain` | src/commands/resume.ts:21-46 | `resume` is the chain "in voice, connected, has tracks, paused" |
| `Commands.Skip` | src/commands/skip.ts:12-58 | nothing outside a cached guild; the track is skipped exactly when the caller is in voice, the bot connected and tracks exist |
| `Commands.SkipIsChain` | src/commands/skip.ts:20-50 | `skip` is the chain "in voice, connected, has tracks" |
| `Commands.OneReplyEach` | src/commands/skip.ts:20-58 | whatever the answers, each handler in a cached guild sends exactly one reply: `pause`, `resume` and `skip` end with it; `play` (play.ts:29-82) sends it right after fetching the manager and, when it accepts the query, ends by editing it |

## Left out

- Discord, the voice library, yt-dlp, ffmpeg, the file system, timers and the process environment are not modelled. Their answers are parameters: whether the connection reaches Ready within 20 s, what yt-dlp returns, and the environment variables. Their calls are recorded as effects.
- `isLikelyUrl` and the URL parsing in `play` (`new URL`) are inputs. The model does not implement URL syntax.
- `toLowerCase` is modelled for ASCII letters only.
- Strings are sequences of characters, not UTF-16 code units.
- YtDlp.Abr: a numeric `abr` is read as an exact real number, and `null` or a missing one as 0. A boolean reads as 1 or 0, as in JavaScript. A string, array or object `abr` is read as 0, whereas JavaScript's `Number` reads a numeric string, or an array holding one number, as that number, and anything else as NaN. NaN, infinities and floating-point rounding are not modelled. A comparator that returns NaN breaks the sort in JavaScript; that case is not modelled. yt-dlp writes `abr` as a number or null.
- `Cookies.ParseInt` reads digits into an unbounded integer. The model does not capture that `Number.parseInt` loses precision above 2^53 and returns Infinity for numerals of more than 308 digits, so `Number.isFinite` never fails here.
- The player's states Buffering and AutoPaused count as Playing and Paused. Creating an audio resource does not fail in the model.
- Session.Run: the lock's promise chain is modelled by its sequential view, so JavaScript's interleaving of awaits within one turn is not modelled. A turn's body runs to completion before the next turn starts, which is what the lock guarantees.
- Session.LeaveBody: the turns left on the lock after `leave` are listed together in the `leave` step (`refused`). In the source each is refused when its turn comes; `Session.LeftBehindRefusesAll` runs them on the state left behind. That the advance queued by `stop(true)` is chained behind `leave` relies on the voice library emitting Idle synchronously from `stop`.
- `Music.MusicManager.PlayerFails` models only what the handler does: it emits `error` and queues an advance. The library's own transition to Idle after an error, which queues a second advance, is not modelled.
- `MusicManager` keeps its states in a `Map` by guild id. The model uses a Dafny map, and the object identity of the state and its player is not modelled.
- `GuildManagerProvider` keys a `WeakMap` by `Guild` object. The model keys it by guild id, and garbage collection is not modelled.
- A manager in the provider is represented by its `MusicEmbed`. The rest of `ServerGuildManager`, and the reply controllers, are not part of this model. `Reset` records that the manager leaves.
- Provider.GuildManagerProvider.Reset happens at once. In the source the entry is removed only after `await manager.reset()` (src/di/GuildManagerProvider.ts:46-47), which waits for the `leave` turn on the guild's lock. A `get` in between returns the manager being reset and hands it the new interaction; the model does not capture that window.
- The replies of the command handlers are abstract actions. This includes `/resume`, which reads `guildManager.repliesController` (src/commands/resume.ts:18), a member `ServerGuildManager` does not declare; that reply path is abstract too.
- The embed is a value. The model does not capture that `songToEmbed` returns the same object it keeps, so later updates would show through an earlier reference.
- The embed template's static parts (colour, title, author, description, footer) are not modelled. An update never changes them.
- The reply, deletion and edit calls of the commands and the embed are recorded as actions. Their failures are not modelled. Commands return reply promises without awaiting them inside `try`, so such failures would not reach the `catch`.
- The manager queries of the command handlers (`isConnected`, `hasTracks`, `isPlaying`, `isPaused`) are inputs. `MusicManager` exposes no such methods, so what they answer is not tied to the manager's state. Likewise `musicEmbed`, on which src/guild/ServerGuildManager.ts:31 and src/di/GuildManagerProvider.ts:36 call `setInteraction` (the latter through the `ServerGuildManager` getter that forwards to it), is not declared by `MusicManager`; on that code the call would throw a TypeError, while `Provider.GuildManagerProvider.Get` models it as succeeding.
- Logger: `getFileStream`, `safeJsonStringify`, the console and file writes, the ISO timestamp and the caller-location lookup are not modelled. The timestamp and caller location are inputs, and the output is the list of lines produced. One timestamp serves both the console prefix and the file entry, whereas the source reads `new Date()` separately for each (src/logging/logger.ts:159 and :236), so the two can differ by the time between the reads.
- Cookie refresher: the first `void refreshOnce()` and the interval timer are calls of `RefreshOnce` by the environment. yt-dlp's run is split into its start and its settlement.

## Findings

| source | as written | input that shows it | evidently intended | confidence | as-written member | corrected member |
|---|---|---|---|---|---|---|
| src/music/MusicManager.ts:125-127 | an enqueue queues `playNext` whenever nothing is current, even when an earlier enqueue already queued one that has not run yet | two `/play` requests for a connected idle guild, the second submitted before the first's body finished: both bodies see `nowPlaying == null` and both queue `playNext`; the second `playNext` calls `play(B)` on a player already playing A, so A is cut off right after its `trackStart` | one advance starts playback; later tracks wait in the queue | high, not executed | `Session.AsWrittenCutsFirstTrack` | `Session.RunKeepsSinglePlayer` |
| src/music/MusicManager.ts:164-180 | `leave` calls `player.stop(true)` while holding the lock. The Idle listener (lines 94-99) runs `void this.playNext(id)`. Its guard `if (!s) return` still passes, because the entry is deleted only at :180. So `playNext` chains behind `leave` and meets the closed lock (line 52). Its "GuildLock is closed." rejection is not handled by anyone, and neither is that of an advance already waiting | `/leave` while a track plays | a `playNext` after `leave` does nothing, and no rejection goes unhandled | medium, not executed: relies on the voice library emitting Idle synchronously from `stop(true)`; under Node's default mode an unhandled rejection ends the process | `Session.AsWrittenLeaveLeavesUnhandled` | `Session.CorrectedLeaveRefusesOnlyCallers` |
