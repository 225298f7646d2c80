/** The slash-command handlers of src/commands/play.ts, pause.ts, resume.ts
    and skip.ts: each is an ordered chain of checks that either sends one
    reply or calls the music manager. The answers of Discord and of the
    manager (is the caller in a voice channel, is the bot connected, what
    `new URL` parsed, what the enqueue returned) are parameters. */
module Commands {
  import opened Optional
  import opened Text

  /** What a handler does, in order. `deleteAfter` is the delay after which
      a reply removes itself, absent for a reply that stays. */
  datatype Act =
    | GetManager                                    // guildManagers.get(guild, interaction)
    | Reply(text: string, deleteAfter: Option<nat>)
    | EditReply(text: string)
    | Enqueue(query: string, requestedBy: string)
    | CallPause
    | CallResume
    | CallSkip

  /** The answer of a manager query made inside the handler's `try`. */
  datatype Query = Returns(b: bool) | Throws(error: string)

  /** One check of a chain: whether it passed, and the reply when it fails. */
  datatype Guard = Guard(passes: bool, reply: Act)

  /** The first check that fails, if any. */
  function FirstFailing(gs: seq<Guard>): (r: Option<nat>)
    ensures r.None? <==> forall i :: 0 <= i < |gs| ==> gs[i].passes
    ensures r.Some? ==> r.value < |gs| && !gs[r.value].passes
                        && forall i :: 0 <= i < r.value ==> gs[i].passes
  {
    if gs == [] then None
    else if !gs[0].passes then Some(0)
    else match FirstFailing(gs[1..])
      case None => None
      case Some(i) => Some(i + 1)
  }

  /** The reference shape of every handler: the reply of the first failing
      check, or the action when all pass. */
  function Chain(gs: seq<Guard>, action: seq<Act>): (acts: seq<Act>)
    ensures FirstFailing(gs).None? ==> acts == action
    ensures FirstFailing(gs).Some? ==> acts == [gs[FirstFailing(gs).value].reply]
  {
    if gs == [] then action
    else if !gs[0].passes then [gs[0].reply]
    else Chain(gs[1..], action)
  }

  const ShortDelete: Option<nat> := Some(3000)

  function NotInVoice(verb: string): string
  {
    "You need to be in a Voice Channel to " + verb + " a song."
  }

  const NotConnected: string := "Bot is not connected to this channel."

  function WentWrong(error: string): string
  {
    "Something went wrong: " + error
  }

  // ---------------------------------------------------------------------------
  // play

  const NotYouTube: string := "You can only use YOUTUBE as a source"
  const Loading: string := "Loading…"
  const LoadFailed: string := "Something went wrong while loading that track."

  /** The host check of `play`: the lower-cased host mentions "youtube.com"
      or "youtu.be". */
  predicate IsYouTubeHost(host: string)
  {
    Contains(ToLower(host), "youtube.com") || Contains(ToLower(host), "youtu.be")
  }

  /** The edit that follows the enqueue: the queued title, or the failure
      text when `enqueueFromQuery` threw. */
  function QueuedText(enqueued: Option<string>): string
  {
    if enqueued.Some? then "Queued: **" + enqueued.value + "**" else LoadFailed
  }

  /** What an accepted `play` does: "Loading…", the enqueue, the edit. */
  function PlayAction(requester: string, query: string, enqueued: Option<string>): (acts: seq<Act>)
    ensures Enqueue(Trim(query), requester) in acts
  {
    [Reply(Loading, None), Enqueue(Trim(query), requester), EditReply(QueuedText(enqueued))]
  }

  /** The second check of `play`: text that is no URL passes as a search,
      a URL passes when its host is YouTube's. */
  predicate HostAccepted(host: Option<string>)
  {
    host.None? || IsYouTubeHost(host.value)
  }

  /** The `play` handler. `host` is the hostname of `new URL(query.trim())`
      when that parses, `enqueued` the title of the queued track, absent when
      `enqueueFromQuery` threw. */
  function Play(chatInput: bool, cached: bool, inVoice: bool, requester: string,
                query: string, host: Option<string>, enqueued: Option<string>): (acts: seq<Act>)
    ensures !chatInput || !cached <==> acts == []
    ensures acts != [] ==> acts[0] == GetManager
    ensures Enqueue(Trim(query), requester) in acts <==> chatInput && cached && inVoice && HostAccepted(host)
  {
    if !chatInput || !cached then []
    else
      [GetManager] +
      (if !inVoice then [Reply(NotInVoice("play"), ShortDelete)]
       else if !HostAccepted(host) then [Reply(NotYouTube, ShortDelete)]
       else PlayAction(requester, query, enqueued))
  }

  /** A chain of two checks. */
  lemma ChainOfTwo(a: Guard, b: Guard, action: seq<Act>)
    ensures Chain([a, b], action) == if !a.passes then [a.reply] else if !b.passes then [b.reply] else action
  {
    var gs := [a, b];
    assert gs[1..] == [b];
    assert gs[1..][1..] == [];
  }

  /** `play` follows the chain "in a voice channel, then a YouTube URL or no
      URL at all"; the accepted query is trimmed and "Loading…" is sent
      before the enqueue. */
  lemma PlayIsChain(requester: string, query: string, inVoice: bool, host: Option<string>, enqueued: Option<string>)
    ensures Play(true, true, inVoice, requester, query, host, enqueued) ==
      [GetManager] + Chain(
        [Guard(inVoice, Reply(NotInVoice("play"), ShortDelete)),
         Guard(HostAccepted(host), Reply(NotYouTube, ShortDelete))],
        PlayAction(requester, query, enqueued))
  {
    ChainOfTwo(Guard(inVoice, Reply(NotInVoice("play"), ShortDelete)),
               Guard(HostAccepted(host), Reply(NotYouTube, ShortDelete)),
               PlayAction(requester, query, enqueued));
  }

  /** Lower-casing text without capital letters changes nothing. */
  lemma LowerOfLower(s: string)
    requires forall i :: 0 <= i < |s| ==> !('A' <= s[i] <= 'Z')
    ensures ToLower(s) == s
  {
  }

  lemma LowerConcat(a: string, b: string)
    ensures ToLower(a + b) == ToLower(a) + ToLower(b)
  {
  }

  /** The host check ignores letter case. */
  lemma {:induction false} HostCheckIgnoresCase(host: string)
    ensures IsYouTubeHost(ToLower(host)) == IsYouTubeHost(host)
  {
    LowerOfLower(ToLower(host));
  }

  /** A host ending in lower-case text `h` contains `h` once lower-cased. */
  lemma {:induction false} EndsWithLower(prefix: string, h: string)
    requires forall i :: 0 <= i < |h| ==> !('A' <= h[i] <= 'Z')
    ensures Contains(ToLower(prefix + h), h)
  {
    LowerConcat(prefix, h);
    LowerOfLower(h);
    ContainsInfix(ToLower(prefix), h, []);
    assert ToLower(prefix) + h + [] == ToLower(prefix + h);
  }

  /** youtube.com, its subdomains and youtu.be pass the host check. */
  lemma {:induction false} YouTubeHostsPass(prefix: string)
    ensures IsYouTubeHost(prefix + "youtube.com")
    ensures IsYouTubeHost(prefix + "youtu.be")
  {
    EndsWithLower(prefix, "youtube.com");
    EndsWithLower(prefix, "youtu.be");
  }

  // ---------------------------------------------------------------------------
  // pause

  const NoSongPlaying: string := "No song is playing"
  const Paused: string := "Song paused"

  /** The `pause` handler. `isPlaying` is the manager's answer; `pauseError`
      what the awaited `pause()` threw, if anything. A failure inside the
      `try` is reported with a reply that stays. */
  function Pause(cached: bool, inVoice: bool, connected: bool, isPlaying: Query, pauseError: Option<string>): (acts: seq<Act>)
    ensures !cached <==> acts == []
    ensures CallPause in acts <==> cached && inVoice && connected && isPlaying == Returns(true)
  {
    if !cached then []
    else
      [GetManager] +
      (if !inVoice then [Reply(NotInVoice("pause"), ShortDelete)]
       else if !connected then [Reply(NotConnected, ShortDelete)]
       else match isPlaying
         case Throws(e) => [Reply(WentWrong(e), None)]
         case Returns(playing) =>
           if !playing then [Reply(NoSongPlaying, ShortDelete)]
           else [CallPause] + [if pauseError.Some? then Reply(WentWrong(pauseError.value), None) else Reply(Paused, ShortDelete)])
  }

  /** Without failures, `pause` is the chain "voice channel, connected,
      playing" in that order. */
  lemma PauseIsChain(inVoice: bool, connected: bool, playing: bool)
    ensures Pause(true, inVoice, connected, Returns(playing), None) ==
      [GetManager] + Chain(
        [Guard(inVoice, Reply(NotInVoice("pause"), ShortDelete)),
         Guard(connected, Reply(NotConnected, ShortDelete)),
         Guard(playing, Reply(NoSongPlaying, ShortDelete))],
        [CallPause, Reply(Paused, ShortDelete)])
  {
    var gs := [Guard(inVoice, Reply(NotInVoice("pause"), ShortDelete)),
               Guard(connected, Reply(NotConnected, ShortDelete)),
               Guard(playing, Reply(NoSongPlaying, ShortDelete))];
    assert gs[1..] == [gs[1], gs[2]];
    assert gs[1..][1..] == [gs[2]];
    assert gs[1..][1..][1..] == [];
  }

  // ---------------------------------------------------------------------------
  // resume

  const NoSongToResume: string := "There is no song to resume"
  const AlreadyPlaying: string := "Song is already playing"
  const Resumed: string := "Song resumed"

  /** The `resume` handler; unlike `pause`, its failure reply also removes
      itself after 3000 ms. */
  function Resume(cached: bool, inVoice: bool, connected: bool, hasTracks: Query, isPaused: Query,
                  resumeError: Option<string>): (acts: seq<Act>)
    ensures !cached <==> acts == []
    ensures CallResume in acts <==>
      cached && inVoice && connected && hasTracks == Returns(true) && isPaused == Returns(true)
  {
    if !cached then []
    else
      [GetManager] +
      (if !inVoice then [Reply(NotInVoice("resume"), ShortDelete)]
       else if !connected then [Reply(NotConnected, ShortDelete)]
       else match hasTracks
         case Throws(e) => [Reply(WentWrong(e), ShortDelete)]
         case Returns(tracks) =>
           if !tracks then [Reply(NoSongToResume, ShortDelete)]
           else match isPaused
             case Throws(e) => [Reply(WentWrong(e), ShortDelete)]
             case Returns(paused) =>
               if !paused then [Reply(AlreadyPlaying, ShortDelete)]
               else [CallResume] + [if resumeError.Some? then Reply(WentWrong(resumeError.value), ShortDelete)
                                    else Reply(Resumed, ShortDelete)])
  }

  /** Without failures, `resume` is the chain "voice channel, connected, has
      tracks, paused" in that order. */
  lemma ResumeIsChain(inVoice: bool, connected: bool, tracks: bool, paused: bool)
    ensures Resume(true, inVoice, connected, Returns(tracks), Returns(paused), None) ==
      [GetManager] + Chain(
        [Guard(inVoice, Reply(NotInVoice("resume"), ShortDelete)),
         Guard(connected, Reply(NotConnected, ShortDelete)),
         Guard(tracks, Reply(NoSongToResume, ShortDelete)),
         Guard(paused, Reply(AlreadyPlaying, ShortDelete))],
        [CallResume, Reply(Resumed, ShortDelete)])
  {
    var gs := [Guard(inVoice, Reply(NotInVoice("resume"), ShortDelete)),
               Guard(connected, Reply(NotConnected, ShortDelete)),
               Guard(tracks, Reply(NoSongToResume, ShortDelete)),
               Guard(paused, Reply(AlreadyPlaying, ShortDelete))];
    assert gs[1..] == [gs[1], gs[2], gs[3]];
    assert gs[1..][1..] == [gs[2], gs[3]];
    assert gs[1..][1..][1..] == [gs[3]];
    assert gs[1..][1..][1..][1..] == [];
  }

  // ---------------------------------------------------------------------------
  // skip

  const QueueEmpty: string := "There are no songs to be skipped. Queue is empty."
  const Skipped: string := "Song removed from queue"
  /** The failure reply of `skip` stays longer than every other reply. */
  const LongDelete: Option<nat> := Some(5000)

  function Skip(cached: bool, inVoice: bool, connected: bool, hasTracks: Query, skipError: Option<string>): (acts: seq<Act>)
    ensures !cached <==> acts == []
    ensures CallSkip in acts <==> cached && inVoice && connected && hasTracks == Returns(true)
  {
    if !cached then []
    else
      [GetManager] +
      (if !inVoice then [Reply(NotInVoice("skip"), ShortDelete)]
       else if !connected then [Reply(NotConnected, ShortDelete)]
       else match hasTracks
         case Throws(e) => [Reply(WentWrong(e), LongDelete)]
         case Returns(tracks) =>
           if !tracks then [Reply(QueueEmpty, ShortDelete)]
           else [CallSkip] + [if skipError.Some? then Reply(WentWrong(skipError.value), LongDelete)
                              else Reply(Skipped, ShortDelete)])
  }

  /** Without failures, `skip` is the chain "voice channel, connected, has
      tracks" in that order. */
  lemma SkipIsChain(inVoice: bool, connected: bool, tracks: bool)
    ensures Skip(true, inVoice, connected, Returns(tracks), None) ==
      [GetManager] + Chain(
        [Guard(inVoice, Reply(NotInVoice("skip"), ShortDelete)),
         Guard(connected, Reply(NotConnected, ShortDelete)),
         Guard(tracks, Reply(QueueEmpty, ShortDelete))],
        [CallSkip, Reply(Skipped, ShortDelete)])
  {
    var gs := [Guard(inVoice, Reply(NotInVoice("skip"), ShortDelete)),
               Guard(connected, Reply(NotConnected, ShortDelete)),
               Guard(tracks, Reply(QueueEmpty, ShortDelete))];
    assert gs[1..] == [gs[1], gs[2]];
    assert gs[1..][1..] == [gs[2]];
    assert gs[1..][1..][1..] == [];
  }

  /** The handler ends with a reply, and it is the only one it sends. */
  predicate EndsWithOnlyReply(acts: seq<Act>)
  {
    && acts != []
    && acts[|acts| - 1].Reply?
    && forall i :: 0 <= i < |acts| - 1 ==> !acts[i].Reply?
  }

  /** Each handler sends exactly one reply, whatever the answers, once it is
      in a cached guild: `pause`, `resume` and `skip` end with it; `play`
      sends it right after fetching the manager and, when it accepts the
      query, ends by editing it. */
  lemma OneReplyEach(inVoice: bool, connected: bool, q1: Query, q2: Query, err: Option<string>,
                     requester: string, query: string, host: Option<string>, enqueued: Option<string>)
    ensures EndsWithOnlyReply(Pause(true, inVoice, connected, q1, err))
    ensures EndsWithOnlyReply(Resume(true, inVoice, connected, q1, q2, err))
    ensures EndsWithOnlyReply(Skip(true, inVoice, connected, q1, err))
    ensures var acts := Play(true, true, inVoice, requester, query, host, enqueued);
      && |acts| >= 2 && acts[1].Reply?
      && (forall i :: 0 <= i < |acts| && i != 1 ==> !acts[i].Reply?)
      && (inVoice && HostAccepted(host) ==> acts[|acts| - 1] == EditReply(QueuedText(enqueued)))
  {
  }
}
