/** The MusicManager class of src/music/MusicManager.ts: the map from guild
    ids to their GuildMusicState, the listeners attached when a state is
    created, and the public operations, each of which submits one turn to the
    guild's lock. Running the turns (in the order they were submitted) is
    `RunTurn`, whose effect is the step function of module Session. */
module Music {
  import opened Optional
  import opened YtDlp
  import opened Session

  /** The state a guild has after `state(guildId)`: the existing one, or a
      fresh one. */
  function StateOf(states: map<GuildId, GuildState>, g: GuildId): (s: GuildState)
    ensures g in states ==> s == states[g]
    ensures g !in states ==> s.queue == [] && s.nowPlaying.None? && s.connection.None?
                             && s.player == Idle && !s.closed && s.pending == []
  {
    if g in states then states[g] else Fresh
  }

  /** Appends a turn to the lock of a guild that has a state. */
  function Submit(states: map<GuildId, GuildState>, g: GuildId, t: Turn): (r: map<GuildId, GuildState>)
    requires g in states
    ensures r.Keys == states.Keys
    ensures r[g] == states[g].(pending := states[g].pending + [t])
    ensures forall h :: h in states && h != g ==> r[h] == states[h]
  {
    states[g := states[g].(pending := states[g].pending + [t])]
  }

  /** No guild in the map has a closed lock: `leave` closes the lock and
      deletes the entry in the same turn. */
  predicate AllOpen(states: map<GuildId, GuildState>)
  {
    forall g :: g in states ==> !states[g].closed
  }

  /** A turn run on an open lock never leaves a closed lock in the map. The
      manager runs the program as written. */
  lemma RunKeepsOpen(g: GuildId, s: GuildState)
    requires s.pending != [] && !s.closed
    ensures Run(AsWritten, g, s).next.Some? ==> !Run(AsWritten, g, s).next.value.closed
    ensures Run(AsWritten, g, s).next.None? <==> s.pending[0] == LeaveTurn
  {
  }

  class MusicManager {
    /** `states`. */
    var states: map<GuildId, GuildState>
    /** Library calls made and events emitted, in order. */
    var log: seq<Effect>
    /** `PIPE_FROM_YTDLP`. */
    const pipeFromYtdlp: bool
    /** `YTDLP_FORMAT`. */
    const ytdlpFormat: string

    ghost predicate Valid()
      reads this
    {
      AllOpen(states)
    }

    constructor()
      ensures Valid()
      ensures states == map[] && log == []
      ensures pipeFromYtdlp && ytdlpFormat == DefaultFormat
    {
      states := map[];
      log := [];
      pipeFromYtdlp := true;
      ytdlpFormat := DefaultFormat;
    }

    /** `enqueueFromQuery`: creates the guild's state if it has none and
      submits the enqueue body. `ready` and `resolved` are what the voice
      connection and yt-dlp will answer when the turn runs. */
    method EnqueueFromQuery(g: GuildId, channel: ChannelId, ready: bool, resolved: Option<TrackInfo>)
      requires Valid()
      modifies this
      ensures Valid()
      ensures g in states && states.Keys == old(states).Keys + {g}
      ensures states == Submit(old(states)[g := StateOf(old(states), g)], g, EnqueueTurn(channel, ready, resolved))
      ensures log == old(log)
    {
      var s := StateOf(states, g);
      states := Submit(states[g := s], g, EnqueueTurn(channel, ready, resolved));
    }

    // `skip`, `pause`, `resume` and `leave`: nothing for a guild without a
    // state; otherwise the body is submitted to the guild's lock.

    method Skip(g: GuildId)
      requires Valid()
      modifies this
      ensures Valid()
      ensures g !in old(states) ==> states == old(states)
      ensures g in old(states) ==> states == Submit(old(states), g, SkipTurn)
      ensures log == old(log)
    {
      if g in states {
        states := Submit(states, g, SkipTurn);
      }
    }

    method Pause(g: GuildId)
      requires Valid()
      modifies this
      ensures Valid()
      ensures g !in old(states) ==> states == old(states)
      ensures g in old(states) ==> states == Submit(old(states), g, PauseTurn)
      ensures log == old(log)
    {
      if g in states {
        states := Submit(states, g, PauseTurn);
      }
    }

    method Resume(g: GuildId)
      requires Valid()
      modifies this
      ensures Valid()
      ensures g !in old(states) ==> states == old(states)
      ensures g in old(states) ==> states == Submit(old(states), g, ResumeTurn)
      ensures log == old(log)
    {
      if g in states {
        states := Submit(states, g, ResumeTurn);
      }
    }

    method Leave(g: GuildId)
      requires Valid()
      modifies this
      ensures Valid()
      ensures g !in old(states) ==> states == old(states)
      ensures g in old(states) ==> states == Submit(old(states), g, LeaveTurn)
      ensures log == old(log)
    {
      if g in states {
        states := Submit(states, g, LeaveTurn);
      }
    }

    /** The head turn of a guild's lock runs to completion: its caller gets
      `outcome`, the effects are appended to the log, and the guild's state
      becomes the step's next state, or leaves the map after `leave`; the
      turns left on a lock that `leave` closed are refused to their callers. */
    method RunTurn(g: GuildId) returns (outcome: Outcome, refused: seq<Turn>)
      requires Valid()
      requires g in states && states[g].pending != []
      modifies this
      ensures Valid()
      ensures var st := Run(AsWritten, g, old(states)[g]);
        && outcome == st.outcome && refused == st.refused
        && log == old(log) + st.effects
        && states == (if st.next.Some? then old(states)[g := st.next.value] else old(states) - {g})
      ensures g !in states <==> old(states)[g].pending[0] == LeaveTurn
    {
      var st := Run(AsWritten, g, states[g]);
      RunKeepsOpen(g, states[g]);
      outcome := st.outcome;
      refused := st.refused;
      log := log + st.effects;
      if st.next.Some? {
        states := states[g := st.next.value];
      } else {
        states := states - {g};
      }
    }

    /** The player's stateChange listener when a track ends on its own: the
      player goes Idle and `playNext` is submitted. A guild without a state
      has no listener of this manager. */
    method TrackEnds(g: GuildId)
      requires Valid()
      modifies this
      ensures Valid()
      ensures g in old(states) && old(states)[g].player != Idle ==>
        states == old(states)[g := old(states)[g].(player := Idle, pending := old(states)[g].pending + [AdvanceTurn])]
      ensures !(g in old(states) && old(states)[g].player != Idle) ==> states == old(states)
      ensures log == old(log)
    {
      if g in states && states[g].player != Idle {
        states := states[g := ForceStop(states[g])];
      }
    }

    /** The player's error listener: emit `error`, then submit `playNext`. */
    method PlayerFails(g: GuildId)
      requires Valid()
      requires g in states
      modifies this
      ensures Valid()
      ensures log == old(log) + [Emit(PlayerError(g))]
      ensures states == Submit(old(states), g, AdvanceTurn)
    {
      log := log + [Emit(PlayerError(g))];
      states := Submit(states, g, AdvanceTurn);
    }

    /** The connection's Disconnected listener, attached only once the
      connection reached Ready: it emits `disconnect` and changes nothing. */
    method ConnectionDrops(g: GuildId)
      requires Valid()
      modifies this
      ensures states == old(states)
      ensures log == old(log) + (if Reports(old(states), g) then [Emit(Disconnect(g))] else [])
    {
      if Reports(states, g) {
        log := log + [Emit(Disconnect(g))];
      }
    }
  }

  predicate Reports(states: map<GuildId, GuildState>, g: GuildId)
  {
    g in states && states[g].connection.Some? && states[g].connection.value.reportsDisconnect
  }
}
