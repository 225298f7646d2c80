/** The per-guild playback state of src/music/MusicManager.ts and the effect
    of running one turn of its GuildLock.

    The lock is a chain of promises: each `withLock` call waits for the call
    before it. Its sequential view is a FIFO of pending turns (`pending`):
    a public operation only appends its body as a turn; `Run` takes the head
    turn and runs it to completion. `void this.playNext(id)` appends an
    `AdvanceTurn` at the tail.

    The turns can run the program as written or as corrected (`Variant`):
    the manager runs it as written; the corrections of two defects are
    stated and proved separately. */
module Session {
  import opened Optional
  import opened YtDlp

  type GuildId = string
  type ChannelId = string

  /** The audio player's status, abstracted to the three the controller
      distinguishes (buffering counts as playing). */
  datatype PlayerStatus = Idle | Playing | Paused

  /** A voice connection; `reportsDisconnect` is set once it reached Ready,
      which is when the Disconnected listener is attached. */
  datatype Connection = Connection(channel: ChannelId, reportsDisconnect: bool)

  /** A body waiting for its turn on a guild's lock. An enqueue carries the
      answers of the outside world it will meet: whether the connection
      becomes Ready in time and what the resolver returns. */
  datatype Turn =
    | EnqueueTurn(channel: ChannelId, ready: bool, resolved: Option<TrackInfo>)
    | SkipTurn
    | PauseTurn
    | ResumeTurn
    | LeaveTurn
    | AdvanceTurn

  /** GuildMusicState together with its GuildLock (`closed`, `pending`). */
  datatype GuildState = GuildState(
    queue: seq<TrackInfo>,
    nowPlaying: Option<TrackInfo>,
    connection: Option<Connection>,
    player: PlayerStatus,
    closed: bool,
    pending: seq<Turn>)

  /** The manager's EventEmitter events. */
  datatype Event = TrackStart(guild: GuildId, track: TrackInfo) | Disconnect(guild: GuildId) | PlayerError(guild: GuildId)

  /** Calls into the voice library. */
  datatype Command = Join(channel: ChannelId) | Subscribe | Play(track: TrackInfo) | Stop | Pause | Unpause | Destroy

  datatype Failure = LockClosed | ConnectionTimeout | ResolutionFailed

  /** What the caller awaiting a turn receives. */
  datatype Outcome = Enqueued(track: TrackInfo) | Completed | Failed(reason: Failure)

  /** What a turn does to the outside, in order: library calls and events. */
  datatype Effect = Call(command: Command) | Emit(event: Event)

  /** The result of running one turn: the guild's new state (`None` once the
      entry is deleted), the caller's outcome, the effects, and the turns
      still queued on a lock that this turn closed. */
  datatype Step = Step(next: Option<GuildState>, outcome: Outcome, effects: seq<Effect>, refused: seq<Turn>)

  /** Which program the turns run: the source as written, or the source
      with two corrections: an enqueue queues the advance routine only when
      none is queued yet, and the refusal of an advance routine that meets a
      closed lock is caught (nobody awaits it). */
  datatype Variant = AsWritten | Corrected

  /** A GuildMusicState as `state()` creates it. */
  const Fresh: GuildState := GuildState([], None, None, Idle, false, [])

  /** `player.stop(true)`: a playing or paused player goes Idle, and its Idle
      listener queues `playNext` behind every turn already waiting. */
  function ForceStop(s: GuildState): (r: GuildState)
    ensures r.player == Idle
    ensures r.pending == s.pending + (if s.player == Idle then [] else [AdvanceTurn])
    ensures r.queue == s.queue && r.nowPlaying == s.nowPlaying && r.connection == s.connection && r.closed == s.closed
  {
    if s.player == Idle then s else s.(player := Idle, pending := s.pending + [AdvanceTurn])
  }

  /** `ensureConnected`: an existing connection is only re-subscribed;
      otherwise one connection to `channel` is joined, stored and subscribed
      before waiting for Ready. Returns the new state, the library calls and
      whether the connection is usable. */
  function EnsureConnected(s: GuildState, channel: ChannelId, ready: bool): (GuildState, seq<Effect>, bool)
  {
    if s.connection.Some? then (s, [Call(Subscribe)], true)
    else (s.(connection := Some(Connection(channel, ready))), [Call(Join(channel)), Call(Subscribe)], ready)
  }

  /** Whether an enqueue that found nothing current queues the advance
      routine: as written always; as corrected only when none is queued. */
  predicate QueuesAdvance(v: Variant, s: GuildState)
  {
    s.nowPlaying.None? && (v == AsWritten || AdvanceTurn !in s.pending)
  }

  /** The body of `enqueueFromQuery`: connect, resolve, append the track and
      queue the advance routine when nothing is current. */
  function EnqueueBody(v: Variant, s: GuildState, channel: ChannelId, ready: bool, resolved: Option<TrackInfo>): Step
  {
    var (s1, cmds, ok) := EnsureConnected(s, channel, ready);
    if !ok then Step(Some(s1), Failed(ConnectionTimeout), cmds, [])
    else if resolved.None? then Step(Some(s1), Failed(ResolutionFailed), cmds, [])
    else
      var t := resolved.value;
      var s2 := s1.(queue := s1.queue + [t]);
      var s3 := if QueuesAdvance(v, s2) then s2.(pending := s2.pending + [AdvanceTurn]) else s2;
      Step(Some(s3), Enqueued(t), cmds, [])
  }

  /** The turns whose refusal reaches a caller that awaits it: all but the
      advance routine, which `void this.playNext(id)` starts without anyone
      awaiting it. */
  function Awaited(turns: seq<Turn>): seq<Turn>
  {
    if turns == [] then []
    else (if turns[0] == AdvanceTurn then [] else [turns[0]]) + Awaited(turns[1..])
  }

  /** `Awaited` drops exactly the advance routines. */
  lemma {:induction false} AwaitedKeepsCallers(turns: seq<Turn>)
    ensures AdvanceTurn !in Awaited(turns)
    ensures forall t :: t != AdvanceTurn ==> multiset(Awaited(turns))[t] == multiset(turns)[t]
  {
    if turns != [] {
      AwaitedKeepsCallers(turns[1..]);
      assert turns == [turns[0]] + turns[1..];
    }
  }

  /** The body of `leave`: empty the queue, forget the current track, stop
      the player, destroy the connection, close the lock, delete the entry
      and emit `disconnect`. `refused` lists the turns still chained on the
      closed lock, whose rejections are not handled by a caller when they are
      advance routines; as corrected, those are caught and not listed. */
  function LeaveBody(v: Variant, g: GuildId, s: GuildState): Step
  {
    var calls := [Call(Stop)] + (if s.connection.Some? then [Call(Destroy)] else []);
    var left := LeftBehind(s).pending;
    Step(None, Completed, calls + [Emit(Disconnect(g))], if v == AsWritten then left else Awaited(left))
  }

  /** The GuildMusicState that `leave` leaves behind once it is no longer in
      the map; turns still chained on its lock meet it closed. */
  function LeftBehind(s: GuildState): GuildState
  {
    ForceStop(s.(queue := [], nowPlaying := None)).(connection := None, closed := true)
  }

  /** The body of `playNext`: shift the head of the queue into `nowPlaying`;
      if there was one, play it and emit `trackStart`. */
  function AdvanceBody(g: GuildId, s: GuildState): Step
  {
    if s.queue == [] then Step(Some(s.(nowPlaying := None)), Completed, [], [])
    else
      var t := s.queue[0];
      Step(Some(s.(queue := s.queue[1..], nowPlaying := Some(t), player := Playing)),
           Completed, [Call(Play(t)), Emit(TrackStart(g, t))], [])
  }

  /** `GuildLock.withLock` on the head turn: the turn leaves the chain whether
      it runs or not (the release in `finally`); on a closed lock the body is
      not run and the caller gets "GuildLock is closed.". */
  function Run(v: Variant, g: GuildId, s: GuildState): Step
    requires s.pending != []
  {
    var turn := s.pending[0];
    var s1 := s.(pending := s.pending[1..]);
    if s.closed then Step(Some(s1), Failed(LockClosed), [], [])
    else match turn
      case EnqueueTurn(channel, ready, resolved) => EnqueueBody(v, s1, channel, ready, resolved)
      case SkipTurn => Step(Some(ForceStop(s1)), Completed, [Call(Stop)], [])
      case PauseTurn =>
        Step(Some(if s1.player == Playing then s1.(player := Paused) else s1), Completed, [Call(Pause)], [])
      case ResumeTurn =>
        Step(Some(if s1.player == Paused then s1.(player := Playing) else s1), Completed, [Call(Unpause)], [])
      case LeaveTurn => LeaveBody(v, g, s1)
      case AdvanceTurn => AdvanceBody(g, s1)
  }

  // ---------------------------------------------------------------------------
  // Running several turns

  /** What a run of turns produced. */
  datatype Trace = Trace(last: Option<GuildState>, outcomes: seq<Outcome>, effects: seq<Effect>)

  /** Runs up to `n` turns, stopping early when nothing is pending or the
      entry was deleted. */
  function RunTurns(v: Variant, g: GuildId, s: GuildState, n: nat): Trace
    decreases n
  {
    if n == 0 || s.pending == [] then Trace(Some(s), [], [])
    else
      var st := Run(v, g, s);
      if st.next.None? then Trace(None, [st.outcome], st.effects)
      else
        var rest := RunTurns(v, g, st.next.value, n - 1);
        Trace(rest.last, [st.outcome] + rest.outcomes, st.effects + rest.effects)
  }

  lemma RunTurnsUnfold(v: Variant, g: GuildId, s: GuildState, n: nat)
    requires n > 0 && s.pending != [] && Run(v, g, s).next.Some?
    ensures var st := Run(v, g, s);
      var rest := RunTurns(v, g, st.next.value, n - 1);
      RunTurns(v, g, s, n) == Trace(rest.last, [st.outcome] + rest.outcomes, st.effects + rest.effects)
  {
  }

  /** The tracks announced by `trackStart`, in order. */
  function Started(effects: seq<Effect>): seq<TrackInfo>
  {
    if effects == [] then []
    else (if effects[0].Emit? && effects[0].event.TrackStart? then [effects[0].event.track] else [])
         + Started(effects[1..])
  }

  /** The tracks enqueue callers got back, in order. */
  function Accepted(outcomes: seq<Outcome>): seq<TrackInfo>
  {
    if outcomes == [] then []
    else (if outcomes[0].Enqueued? then [outcomes[0].track] else []) + Accepted(outcomes[1..])
  }

  /** The tracks the resolver produced for the pending enqueues, in
      submission order. */
  function Offered(turns: seq<Turn>): seq<TrackInfo>
  {
    if turns == [] then []
    else (if turns[0].EnqueueTurn? && turns[0].resolved.Some? then [turns[0].resolved.value] else [])
         + Offered(turns[1..])
  }

  predicate NoLeave(turns: seq<Turn>)
  {
    forall i :: 0 <= i < |turns| ==> !turns[i].LeaveTurn?
  }

  const AllRefused: Outcome := Failed(LockClosed)

  lemma {:induction false} StartedAppend(a: seq<Effect>, b: seq<Effect>)
    ensures Started(a + b) == Started(a) + Started(b)
  {
    if a == [] {
      assert a + b == b;
    } else {
      assert (a + b)[0] == a[0];
      assert (a + b)[1..] == a[1..] + b;
      StartedAppend(a[1..], b);
    }
  }

  lemma {:induction false} AcceptedAppend(a: seq<Outcome>, b: seq<Outcome>)
    ensures Accepted(a + b) == Accepted(a) + Accepted(b)
  {
    if a == [] {
      assert a + b == b;
    } else {
      assert (a + b)[0] == a[0];
      assert (a + b)[1..] == a[1..] + b;
      AcceptedAppend(a[1..], b);
    }
  }

  lemma {:induction false} OfferedPrefix(turns: seq<Turn>, n: nat)
    requires 0 < n <= |turns|
    ensures Offered(turns[..n]) == Offered([turns[0]]) + Offered(turns[1..n])
  {
    assert turns[..n] == [turns[0]] + turns[1..n];
    assert ([turns[0]] + turns[1..n])[1..] == turns[1..n];
  }

  // ---------------------------------------------------------------------------
  // One turn

  /** A successful enqueue appends exactly the resolved track and returns it;
      it queues the advance routine when nothing is current (as corrected,
      only when none is queued yet); an existing
      connection is only re-subscribed, a missing one joined exactly once. */
  lemma EnqueueTurnAppends(v: Variant, g: GuildId, s: GuildState, channel: ChannelId, ready: bool, t: TrackInfo)
    requires s.pending != [] && s.pending[0] == EnqueueTurn(channel, ready, Some(t)) && !s.closed
    requires s.connection.Some? || ready
    ensures var r := Run(v, g, s);
      && r.outcome == Enqueued(t) && r.next.Some? && r.refused == []
      && r.next.value.queue == s.queue + [t]
      && r.next.value.nowPlaying == s.nowPlaying && r.next.value.player == s.player
      && r.next.value.pending == s.pending[1..] + (if s.nowPlaying.None? && (v == AsWritten || AdvanceTurn !in s.pending[1..]) then [AdvanceTurn] else [])
      && (s.connection.Some? ==> r.next.value.connection == s.connection && r.effects == [Call(Subscribe)])
      && (s.connection.None? ==> r.next.value.connection == Some(Connection(channel, true))
                                 && r.effects == [Call(Join(channel)), Call(Subscribe)])
  {
  }

  /** A failed enqueue leaves the queue and the pending advances alone; a
      connection that was joined but did not become Ready stays stored. */
  lemma EnqueueTurnFails(v: Variant, g: GuildId, s: GuildState, channel: ChannelId, ready: bool, resolved: Option<TrackInfo>)
    requires s.pending != [] && s.pending[0] == EnqueueTurn(channel, ready, resolved) && !s.closed
    requires (s.connection.None? && !ready) || resolved.None?
    ensures var r := Run(v, g, s);
      && r.outcome == Failed(if s.connection.None? && !ready then ConnectionTimeout else ResolutionFailed)
      && r.next == Some(s.(pending := s.pending[1..],
                           connection := if s.connection.None? then Some(Connection(channel, ready)) else s.connection))
  {
  }

  /** The advance routine removes exactly the head of the queue, makes it
      current, plays it and then emits one `trackStart` for it; on an empty
      queue it only clears `nowPlaying`. */
  lemma AdvanceTurnPops(v: Variant, g: GuildId, s: GuildState)
    requires s.pending != [] && s.pending[0] == AdvanceTurn && !s.closed
    ensures var r := Run(v, g, s);
      && r.outcome == Completed && r.refused == []
      && (s.queue != [] ==>
            && r.next == Some(s.(queue := s.queue[1..], nowPlaying := Some(s.queue[0]), player := Playing,
                                 pending := s.pending[1..]))
            && r.effects == [Call(Play(s.queue[0])), Emit(TrackStart(g, s.queue[0]))])
      && (s.queue == [] ==> r.next == Some(s.(nowPlaying := None, pending := s.pending[1..])) && r.effects == [])
  {
  }

  /** `leave` deletes the entry, stops the player, destroys a connection if
      there is one and then emits `disconnect`; what it leaves behind has an
      empty queue, no current track, no connection and a closed lock, and the
      turns still chained on that lock (including the advance the stop may
      queue) are refused. */
  lemma LeaveTurnClears(v: Variant, g: GuildId, s: GuildState)
    requires s.pending != [] && s.pending[0] == LeaveTurn && !s.closed
    ensures var r := Run(v, g, s);
      var left := LeftBehind(s.(pending := s.pending[1..]));
      && r.next.None? && r.outcome == Completed
      && r.effects == [Call(Stop)] + (if s.connection.Some? then [Call(Destroy)] else []) + [Emit(Disconnect(g))]
      && left.queue == [] && left.nowPlaying.None? && left.connection.None? && left.closed
      && left.player == Idle
      && left.pending == s.pending[1..] + (if s.player == Idle then [] else [AdvanceTurn])
      && r.refused == (if v == AsWritten then left.pending else Awaited(left.pending))
  {
  }

  /** `skip`, `pause` and `resume` touch only the player: the queue and the
      current track stay; a skip of a playing or paused track queues the
      advance routine, and pause/resume never do. */
  lemma PlayerTurns(v: Variant, g: GuildId, s: GuildState)
    requires s.pending != [] && !s.closed
    requires s.pending[0] in {SkipTurn, PauseTurn, ResumeTurn}
    ensures var r := Run(v, g, s);
      && r.outcome == Completed && r.next.Some? && Started(r.effects) == []
      && r.next.value.queue == s.queue && r.next.value.nowPlaying == s.nowPlaying
      && r.next.value.connection == s.connection
      && (s.pending[0] == SkipTurn ==>
            r.next.value.player == Idle
            && r.next.value.pending == s.pending[1..] + (if s.player == Idle then [] else [AdvanceTurn]))
      && (s.pending[0] == PauseTurn ==>
            r.next.value.player == (if s.player == Playing then Paused else s.player)
            && r.next.value.pending == s.pending[1..])
      && (s.pending[0] == ResumeTurn ==>
            r.next.value.player == (if s.player == Paused then Playing else s.player)
            && r.next.value.pending == s.pending[1..])
  {
  }

  /** On a closed lock no body runs: each turn fails with "GuildLock is
      closed." and still leaves the chain, so every later waiter is reached
      and refused in turn, with no effect. */
  lemma {:induction false} ClosedLockRefusesAll(v: Variant, g: GuildId, s: GuildState, n: nat)
    requires s.closed && n <= |s.pending|
    ensures var tr := RunTurns(v, g, s, n);
      && tr.last == Some(s.(pending := s.pending[n..]))
      && tr.outcomes == seq(n, _ => AllRefused)
      && tr.effects == []
    decreases n
  {
    if n > 0 {
      var s1 := s.(pending := s.pending[1..]);
      assert Run(v, g, s) == Step(Some(s1), AllRefused, [], []);
      ClosedLockRefusesAll(v, g, s1, n - 1);
      assert s1.pending[n - 1..] == s.pending[n..];
      assert s1.(pending := s1.pending[n - 1..]) == s.(pending := s.pending[n..]);
    }
  }

  /** The only closed lock is the one `leave` leaves behind (the map never
      holds a closed one): what `refused` stands for is that each turn still
      chained on it is refused in turn, with no effect. */
  lemma LeftBehindRefusesAll(v: Variant, g: GuildId, s: GuildState, n: nat)
    requires n <= |LeftBehind(s).pending|
    ensures var left := LeftBehind(s);
      var tr := RunTurns(v, g, left, n);
      && left.closed
      && tr.last == Some(left.(pending := left.pending[n..]))
      && tr.outcomes == seq(n, _ => AllRefused)
      && tr.effects == []
  {
    ClosedLockRefusesAll(v, g, LeftBehind(s), n);
  }

  lemma {:induction false} AwaitedIdempotent(turns: seq<Turn>)
    ensures Awaited(Awaited(turns)) == Awaited(turns)
  {
    if turns != [] {
      AwaitedIdempotent(turns[1..]);
      var rest := Awaited(turns[1..]);
      if turns[0] == AdvanceTurn {
        assert Awaited(turns) == [] + rest == rest;
      } else {
        var r := [turns[0]] + rest;
        assert Awaited(turns) == r;
        assert r[0] == turns[0] && r[1..] == rest;
        assert Awaited(r) == [turns[0]] + Awaited(rest);
      }
    }
  }

  /** `leave` while a track plays or is paused, with nothing else waiting, as
      written: the stop's Idle listener chains `playNext` behind `leave`; it
      meets the closed lock and is refused, and no caller awaits that
      refusal. */
  lemma AsWrittenLeaveLeavesUnhandled(g: GuildId, s: GuildState)
    requires !s.closed && s.player != Idle && s.pending == [LeaveTurn]
    ensures var r := Run(AsWritten, g, s);
      && r.next.None? && r.outcome == Completed
      && r.refused == [AdvanceTurn] && Awaited(r.refused) == []
  {
    assert s.pending[1..] == [];
  }

  /** As corrected, every refusal `leave` causes reaches a caller that awaits
      it, and each such caller is refused as in the program as written. */
  lemma CorrectedLeaveRefusesOnlyCallers(g: GuildId, s: GuildState)
    requires s.pending != [] && s.pending[0] == LeaveTurn && !s.closed
    ensures var r := Run(Corrected, g, s);
      && Awaited(r.refused) == r.refused
      && forall t :: t != AdvanceTurn ==> multiset(r.refused)[t] == multiset(Run(AsWritten, g, s).refused)[t]
  {
    AwaitedIdempotent(LeftBehind(s.(pending := s.pending[1..])).pending);
    AwaitedKeepsCallers(LeftBehind(s.(pending := s.pending[1..])).pending);
  }

  // ---------------------------------------------------------------------------
  // FIFO order

  /** Library calls announce no track. */
  lemma CallsStartNothing(e: seq<Effect>)
    requires forall i :: 0 <= i < |e| ==> e[i].Call?
    ensures Started(e) == []
  {
  }

  lemma EnqueueKeepsOrder(v: Variant, s: GuildState, c: ChannelId, ready: bool, resolved: Option<TrackInfo>)
    ensures var r := EnqueueBody(v, s, c, ready, resolved);
      && r.next.Some?
      && Started(r.effects) + r.next.value.queue == s.queue + Accepted([r.outcome])
      && (NoLeave(s.pending) ==> NoLeave(r.next.value.pending))
  {
    var r := EnqueueBody(v, s, c, ready, resolved);
    var (s2, cmds, ok) := EnsureConnected(s, c, ready);
    CallsStartNothing(cmds);
    assert r.effects == cmds;
    if ok && resolved.Some? {
      assert Accepted([Enqueued(resolved.value)]) == [resolved.value];
    } else {
      assert Accepted([r.outcome]) == [];
    }
  }

  lemma AdvanceKeepsOrder(g: GuildId, s: GuildState)
    ensures var r := AdvanceBody(g, s);
      && r.next.Some?
      && Started(r.effects) + r.next.value.queue == s.queue + Accepted([r.outcome])
      && r.next.value.pending == s.pending
  {
    var r := AdvanceBody(g, s);
    assert Accepted([Completed]) == [];
    if s.queue != [] {
      var e := r.effects;
      assert e == [Call(Play(s.queue[0])), Emit(TrackStart(g, s.queue[0]))];
      assert e[1..][1..] == [];
      assert Started(e[1..]) == [s.queue[0]];
      assert Started(e) == [s.queue[0]];
      assert [s.queue[0]] + s.queue[1..] == s.queue;
    }
  }

  /** One turn other than `leave` moves tracks only from the head of the
      queue to the announced tracks: announced tracks followed by the queue
      equal the old queue followed by the accepted track. */
  lemma StepKeepsOrder(v: Variant, g: GuildId, s: GuildState)
    requires s.pending != [] && !s.pending[0].LeaveTurn?
    ensures Run(v, g, s).next.Some?
    ensures Started(Run(v, g, s).effects) + Run(v, g, s).next.value.queue == s.queue + Accepted([Run(v, g, s).outcome])
    ensures NoLeave(s.pending[1..]) ==> NoLeave(Run(v, g, s).next.value.pending)
  {
    var s1 := s.(pending := s.pending[1..]);
    assert Accepted([Completed]) == [] && Accepted([Failed(LockClosed)]) == [];
    if !s.closed {
      match s.pending[0]
      case EnqueueTurn(c, ready, resolved) => EnqueueKeepsOrder(v, s1, c, ready, resolved);
      case AdvanceTurn => AdvanceKeepsOrder(g, s1);
      case SkipTurn => CallsStartNothing([Call(Stop)]);
      case PauseTurn => CallsStartNothing([Call(Pause)]);
      case ResumeTurn => CallsStartNothing([Call(Unpause)]);
    }
  }

  lemma OrderCompose(e1: seq<Effect>, e2: seq<Effect>, q0: seq<TrackInfo>, q1: seq<TrackInfo>, q2: seq<TrackInfo>,
                     o: Outcome, os: seq<Outcome>)
    requires Started(e1) + q1 == q0 + Accepted([o])
    requires Started(e2) + q2 == q1 + Accepted(os)
    ensures Started(e1 + e2) + q2 == q0 + Accepted([o] + os)
  {
    StartedAppend(e1, e2);
    AcceptedAppend([o], os);
    calc {
      Started(e1 + e2) + q2;
      Started(e1) + (Started(e2) + q2);
      Started(e1) + q1 + Accepted(os);
      q0 + Accepted([o]) + Accepted(os);
    }
  }

  /** However the turns of one guild interleave, as long as none is a
      `leave`, the tracks announced by `trackStart` followed by the queue are
      the starting queue followed by the tracks the enqueues accepted, in the
      order those enqueues ran. */
  lemma {:induction false} RunTurnsKeepsOrder(v: Variant, g: GuildId, s: GuildState, n: nat)
    requires NoLeave(s.pending)
    ensures var tr := RunTurns(v, g, s, n);
      tr.last.Some? && Started(tr.effects) + tr.last.value.queue == s.queue + Accepted(tr.outcomes)
    decreases n
  {
    if n > 0 && s.pending != [] {
      var st := Run(v, g, s);
      assert st.next.Some? && NoLeave(st.next.value.pending)
          && Started(st.effects) + st.next.value.queue == s.queue + Accepted([st.outcome]) by {
        StepKeepsOrder(v, g, s);
        assert NoLeave(s.pending[1..]);
      }
      var s1 := st.next.value;
      var rest := RunTurns(v, g, s1, n - 1);
      assert rest.last.Some? && Started(rest.effects) + rest.last.value.queue == s1.queue + Accepted(rest.outcomes) by {
        RunTurnsKeepsOrder(v, g, s1, n - 1);
      }
      assert RunTurns(v, g, s, n) == Trace(rest.last, [st.outcome] + rest.outcomes, st.effects + rest.effects) by {
        RunTurnsUnfold(v, g, s, n);
      }
      OrderCompose(st.effects, rest.effects, s.queue, s1.queue, rest.last.value.queue, st.outcome, rest.outcomes);
    }
  }

  /** On a connected guild with an open lock, a turn other than `leave`
      answers an enqueue with its resolved track and keeps the guild
      connected and open. */
  lemma StepAnswers(v: Variant, g: GuildId, s: GuildState)
    requires s.connection.Some? && !s.closed && s.pending != [] && !s.pending[0].LeaveTurn?
    requires NoLeave(s.pending[1..])
    ensures Run(v, g, s).next.Some?
    ensures Accepted([Run(v, g, s).outcome]) == Offered([s.pending[0]])
    ensures Run(v, g, s).next.value.connection.Some? && !Run(v, g, s).next.value.closed
    ensures NoLeave(Run(v, g, s).next.value.pending)
    ensures Run(v, g, s).next.value.pending[..|s.pending| - 1] == s.pending[1..]
  {
  }

  /** On a connected guild whose lock is open and holds no `leave`, running
      the turns pending now (the advances they queue go behind them) answers
      every enqueue whose track resolved with that track, in submission
      order. */
  lemma {:induction false} EnqueuesAnswerInOrder(v: Variant, g: GuildId, s: GuildState, n: nat)
    requires s.connection.Some? && !s.closed && NoLeave(s.pending)
    requires n <= |s.pending|
    ensures Accepted(RunTurns(v, g, s, n).outcomes) == Offered(s.pending[..n])
    decreases n
  {
    if n > 0 {
      var st := Run(v, g, s);
      StepAnswers(v, g, s);
      var s1 := st.next.value;
      RunTurnsUnfold(v, g, s, n);
      assert s1.pending[..n - 1] == s.pending[1..n];
      EnqueuesAnswerInOrder(v, g, s1, n - 1);
      OfferedPrefix(s.pending, n);
      assert Accepted([st.outcome]) == Offered([s.pending[0]]);
      AcceptedAppend([st.outcome], RunTurns(v, g, s1, n - 1).outcomes);
    }
  }

  /** Enqueues submitted together to a connected guild: once the turns
      pending now have run, the tracks announced followed by the queue are
      the old queue followed by every resolved track in submission order. */
  lemma ConcurrentEnqueuesKeepOrder(v: Variant, g: GuildId, s: GuildState)
    requires s.connection.Some? && !s.closed && NoLeave(s.pending)
    ensures var tr := RunTurns(v, g, s, |s.pending|);
      tr.last.Some? && Started(tr.effects) + tr.last.value.queue == s.queue + Offered(s.pending)
  {
    RunTurnsKeepsOrder(v, g, s, |s.pending|);
    EnqueuesAnswerInOrder(v, g, s, |s.pending|);
    assert s.pending[..|s.pending|] == s.pending;
  }

  // ---------------------------------------------------------------------------
  // Scenarios

  /** Skipping a playing track with `next` at the head of the queue: the stop
      queues the advance routine, which makes `next` current and announces
      it exactly once. */
  lemma SkipStartsNext(v: Variant, g: GuildId, s: GuildState, next: TrackInfo)
    requires !s.closed && s.player == Playing && s.pending == [SkipTurn]
    requires s.queue != [] && s.queue[0] == next
    ensures var tr := RunTurns(v, g, s, 2);
      && tr.last == Some(s.(queue := s.queue[1..], nowPlaying := Some(next), player := Playing, pending := []))
      && tr.effects == [Call(Stop), Call(Play(next)), Emit(TrackStart(g, next))]
  {
    var s1 := ForceStop(s.(pending := []));
    var s2 := s.(queue := s.queue[1..], nowPlaying := Some(next), player := Playing, pending := []);
    assert s1.pending == [AdvanceTurn] && s.pending[1..] == [] && s1.pending[1..] == [];
    assert Run(v, g, s) == Step(Some(s1), Completed, [Call(Stop)], []);
    assert Run(v, g, s1) == Step(Some(s2), Completed, [Call(Play(next)), Emit(TrackStart(g, next))], []);
    assert RunTurns(v, g, s2, 0) == Trace(Some(s2), [], []);
    RunTurnsUnfold(v, g, s1, 1);
    RunTurnsUnfold(v, g, s, 2);
  }

  /** Pausing and then resuming a playing track leaves the queue and the
      current track as they were and announces nothing. */
  lemma PauseResumeKeepsTrack(v: Variant, g: GuildId, s: GuildState)
    requires !s.closed && s.player == Playing && s.pending == [PauseTurn, ResumeTurn]
    ensures var tr := RunTurns(v, g, s, 2);
      && tr.last == Some(s.(pending := []))
      && tr.effects == [Call(Pause), Call(Unpause)]
  {
    var s1 := s.(player := Paused, pending := [ResumeTurn]);
    var s2 := s.(pending := []);
    assert s.pending[1..] == [ResumeTurn];
    assert Run(v, g, s) == Step(Some(s1), Completed, [Call(Pause)], []);
    assert s1.pending[1..] == [];
    assert Run(v, g, s1) == Step(Some(s2), Completed, [Call(Unpause)], []);
    assert RunTurns(v, g, s2, 0) == Trace(Some(s2), [], []);
    RunTurnsUnfold(v, g, s1, 1);
    RunTurnsUnfold(v, g, s, 2);
  }

  // ---------------------------------------------------------------------------
  // Starting playback once

  /** A connected, idle guild with two enqueues waiting, the second
      submitted before the first has run. */
  function TwoEnqueues(c: ChannelId, a: TrackInfo, b: TrackInfo): GuildState
  {
    Fresh.(connection := Some(Connection(c, true)), pending := [EnqueueTurn(c, true, Some(a)), EnqueueTurn(c, true, Some(b))])
  }

  /** The player is asked to play only when it is idle: at most one advance
      routine is queued, none while a track is playing or paused, and a
      playing or paused player always has a current track. */
  predicate SinglePlayer(s: GuildState)
  {
    && (s.player != Idle ==> s.nowPlaying.Some?)
    && multiset(s.pending)[AdvanceTurn] + (if s.player == Idle then 0 else 1) <= 1
  }

  lemma EnqueueOnConnected(v: Variant, s: GuildState, c: ChannelId, t: TrackInfo)
    requires s.connection.Some?
    ensures EnqueueBody(v, s, c, true, Some(t)) ==
      Step(Some(s.(queue := s.queue + [t], pending := s.pending + (if QueuesAdvance(v, s) then [AdvanceTurn] else []))),
           Enqueued(t), [Call(Subscribe)], [])
  {
    assert EnsureConnected(s, c, true) == (s, [Call(Subscribe)], true);
    if !QueuesAdvance(v, s) {
      assert s.pending + [] == s.pending;
    }
  }

  /** The turns of `TwoEnqueues` one at a time, as written. */
  lemma AsWrittenEnqueueSteps(g: GuildId, c: ChannelId, a: TrackInfo, b: TrackInfo)
    ensures var s0 := TwoEnqueues(c, a, b);
      var s1 := s0.(queue := [a], pending := [EnqueueTurn(c, true, Some(b)), AdvanceTurn]);
      var s2 := s0.(queue := [a, b], pending := [AdvanceTurn, AdvanceTurn]);
      && Run(AsWritten, g, s0) == Step(Some(s1), Enqueued(a), [Call(Subscribe)], [])
      && Run(AsWritten, g, s1) == Step(Some(s2), Enqueued(b), [Call(Subscribe)], [])
  {
    var s0 := TwoEnqueues(c, a, b);
    var s1 := s0.(queue := [a], pending := [EnqueueTurn(c, true, Some(b)), AdvanceTurn]);
    var s2 := s0.(queue := [a, b], pending := [AdvanceTurn, AdvanceTurn]);
    assert s0.pending[1..] == [EnqueueTurn(c, true, Some(b))];
    EnqueueOnConnected(AsWritten, s0.(pending := s0.pending[1..]), c, a);
    assert s0.queue + [a] == [a] && s0.pending[1..] + [AdvanceTurn] == s1.pending;
    assert s1.pending[1..] == [AdvanceTurn];
    EnqueueOnConnected(AsWritten, s1.(pending := s1.pending[1..]), c, b);
    assert s1.queue + [b] == [a, b] && s1.pending[1..] + [AdvanceTurn] == s2.pending;
  }

  lemma AsWrittenAdvanceSteps(g: GuildId, c: ChannelId, a: TrackInfo, b: TrackInfo)
    ensures var s0 := TwoEnqueues(c, a, b);
      var s2 := s0.(queue := [a, b], pending := [AdvanceTurn, AdvanceTurn]);
      var s3 := s0.(queue := [b], nowPlaying := Some(a), player := Playing, pending := [AdvanceTurn]);
      var s4 := s0.(queue := [], nowPlaying := Some(b), player := Playing, pending := []);
      && Run(AsWritten, g, s2) == Step(Some(s3), Completed, [Call(Play(a)), Emit(TrackStart(g, a))], [])
      && Run(AsWritten, g, s3) == Step(Some(s4), Completed, [Call(Play(b)), Emit(TrackStart(g, b))], [])
  {
    var s0 := TwoEnqueues(c, a, b);
    var s2 := s0.(queue := [a, b], pending := [AdvanceTurn, AdvanceTurn]);
    var s3 := s0.(queue := [b], nowPlaying := Some(a), player := Playing, pending := [AdvanceTurn]);
    assert s2.pending[1..] == [AdvanceTurn] && s2.queue[1..] == [b];
    assert s3.pending[1..] == [] && s3.queue[1..] == [];
  }

  /** The two enqueues of `TwoEnqueues` as written: both queue the advance
      routine, so the player, which starts out satisfying `SinglePlayer`,
      plays the first track, announces it, and is then asked to play the
      second while the first is still playing. */
  lemma AsWrittenCutsFirstTrack(g: GuildId, c: ChannelId, a: TrackInfo, b: TrackInfo)
    ensures var s0 := TwoEnqueues(c, a, b);
      var s3 := s0.(queue := [b], nowPlaying := Some(a), player := Playing, pending := [AdvanceTurn]);
      && SinglePlayer(s0)
      && RunTurns(AsWritten, g, s0, 3).last == Some(s3)
      && s3.player == Playing && Run(AsWritten, g, s3).effects == [Call(Play(b)), Emit(TrackStart(g, b))]
      && RunTurns(AsWritten, g, s0, 4).last == Some(s0.(queue := [], nowPlaying := Some(b), player := Playing, pending := []))
      && RunTurns(AsWritten, g, s0, 4).effects
         == [Call(Subscribe), Call(Subscribe), Call(Play(a)), Emit(TrackStart(g, a)), Call(Play(b)), Emit(TrackStart(g, b))]
  {
    var s0 := TwoEnqueues(c, a, b);
    var s1 := s0.(queue := [a], pending := [EnqueueTurn(c, true, Some(b)), AdvanceTurn]);
    var s2 := s0.(queue := [a, b], pending := [AdvanceTurn, AdvanceTurn]);
    var s3 := s0.(queue := [b], nowPlaying := Some(a), player := Playing, pending := [AdvanceTurn]);
    assert multiset(s0.pending)[AdvanceTurn] == 0;
    AsWrittenEnqueueSteps(g, c, a, b);
    AsWrittenAdvanceSteps(g, c, a, b);
    RunTurnsUnfold(AsWritten, g, s3, 1);
    RunTurnsUnfold(AsWritten, g, s2, 2);
    RunTurnsUnfold(AsWritten, g, s1, 3);
    RunTurnsUnfold(AsWritten, g, s0, 4);
    RunTurnsUnfold(AsWritten, g, s2, 1);
    RunTurnsUnfold(AsWritten, g, s1, 2);
    RunTurnsUnfold(AsWritten, g, s0, 3);
  }

  lemma FreshIsSinglePlayer()
    ensures SinglePlayer(Fresh)
  {
  }

  lemma ForceStopKeepsSinglePlayer(s: GuildState)
    requires SinglePlayer(s)
    ensures SinglePlayer(ForceStop(s))
  {
    if s.player != Idle {
      assert multiset(s.pending + [AdvanceTurn]) == multiset(s.pending) + multiset{AdvanceTurn};
    }
  }

  /** As corrected, every turn keeps `SinglePlayer`, and a turn that calls
      `play` finds the player idle. */
  lemma {:induction false} RunKeepsSinglePlayer(g: GuildId, s: GuildState)
    requires s.pending != [] && SinglePlayer(s)
    ensures Run(Corrected, g, s).next.Some? ==> SinglePlayer(Run(Corrected, g, s).next.value)
    ensures forall t :: Call(Play(t)) in Run(Corrected, g, s).effects ==> s.player == Idle
  {
    var head := s.pending[0];
    var s1 := s.(pending := s.pending[1..]);
    assert s.pending == [head] + s1.pending;
    assert multiset(s.pending) == multiset{head} + multiset(s1.pending);
    assert SinglePlayer(s1);
    if !s.closed {
      match head
      case EnqueueTurn(channel, ready, resolved) =>
        if resolved.Some? && (s1.connection.Some? || ready) {
          var n := Run(Corrected, g, s).next.value;
          if s1.nowPlaying.None? && AdvanceTurn !in s1.pending {
            assert multiset(n.pending) == multiset(s1.pending) + multiset{AdvanceTurn};
          } else {
            assert n.pending == s1.pending;
          }
        }
      case SkipTurn => ForceStopKeepsSinglePlayer(s1);
      case PauseTurn =>
      case ResumeTurn =>
      case LeaveTurn =>
      case AdvanceTurn =>
    }
  }

  /** The two enqueues of `TwoEnqueues` as corrected: one advance routine is
      queued, the first track plays and the second waits in the queue. */
  lemma IntendedPlaysFirstTrack(g: GuildId, c: ChannelId, a: TrackInfo, b: TrackInfo)
    ensures var s0 := TwoEnqueues(c, a, b);
      var tr := RunTurns(Corrected, g, s0, 3);
      && tr.last == Some(s0.(queue := [b], nowPlaying := Some(a), player := Playing, pending := []))
      && tr.effects == [Call(Subscribe), Call(Subscribe), Call(Play(a)), Emit(TrackStart(g, a))]
  {
    var s0 := TwoEnqueues(c, a, b);
    var s1 := s0.(queue := [a], pending := [EnqueueTurn(c, true, Some(b)), AdvanceTurn]);
    var s2 := s0.(queue := [a, b], pending := [AdvanceTurn]);
    var s3 := s0.(queue := [b], nowPlaying := Some(a), player := Playing, pending := []);
    assert s0.pending[1..] == [EnqueueTurn(c, true, Some(b))];
    assert AdvanceTurn !in s0.pending[1..];
    EnqueueOnConnected(Corrected, s0.(pending := s0.pending[1..]), c, a);
    assert s0.queue + [a] == [a] && s0.pending[1..] + [AdvanceTurn] == s1.pending;
    assert Run(Corrected, g, s0) == Step(Some(s1), Enqueued(a), [Call(Subscribe)], []);
    assert s1.pending[1..] == [AdvanceTurn];
    EnqueueOnConnected(Corrected, s1.(pending := s1.pending[1..]), c, b);
    assert s1.queue + [b] == [a, b] && AdvanceTurn in s1.pending[1..];
    assert Run(Corrected, g, s1) == Step(Some(s2), Enqueued(b), [Call(Subscribe)], []);
    assert s2.pending[1..] == [] && s2.queue[1..] == [b];
    assert Run(Corrected, g, s2) == Step(Some(s3), Completed, [Call(Play(a)), Emit(TrackStart(g, a))], []);
    RunTurnsUnfold(Corrected, g, s2, 1);
    RunTurnsUnfold(Corrected, g, s1, 2);
    RunTurnsUnfold(Corrected, g, s0, 3);
  }
}
