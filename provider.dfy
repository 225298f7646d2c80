/** src/di/GuildManagerProvider.ts: the cache of one manager per guild.
    A manager is represented by the now-playing embed of its music manager,
    the only part of it the provider touches; guilds are keyed by id. */
module Provider {
  import opened Optional
  import opened Embeds

  type GuildId = string

  class GuildManagerProvider {
    /** `instances`. */
    var instances: map<GuildId, MusicEmbed>
    /** How many times `createMusic` was called. */
    var created: nat
    /** The guilds whose manager was asked to `reset` (leave), in order. */
    var resets: seq<GuildId>

    constructor()
      ensures instances == map[] && created == 0 && resets == []
    {
      instances := map[];
      created := 0;
      resets := [];
    }

    /** `get`: the stored manager of a known guild, with a non-null
      interaction handed to its embed; for an unknown guild, exactly one new
      manager, which starts with the given interaction and is stored. */
    method Get(g: GuildId, interaction: Option<Interaction>) returns (m: MusicEmbed)
      modifies this, if g in instances then {instances[g]} else {}
      ensures g in instances && instances[g] == m
      ensures g in old(instances) ==>
        && m == old(instances[g]) && instances == old(instances) && created == old(created)
        && m.interaction == (if interaction.Some? then interaction else old(m.interaction))
        && m.embed == old(m.embed)
      ensures g !in old(instances) ==>
        && fresh(m) && instances == old(instances)[g := m] && created == old(created) + 1
        && m.interaction == interaction && m.embed == Template
      ensures resets == old(resets)
    {
      if g in instances {
        m := instances[g];
        if interaction.Some? {
          m.SetInteraction(interaction);
        }
      } else {
        m := new MusicEmbed(interaction);
        created := created + 1;
        instances := instances[g := m];
      }
    }

    /** `reset`: nothing for an unknown guild; otherwise the manager leaves
      and then only that guild's entry is removed. */
    method Reset(g: GuildId)
      modifies this
      ensures g !in old(instances) ==> instances == old(instances) && resets == old(resets)
      ensures g in old(instances) ==> instances == old(instances) - {g} && resets == old(resets) + [g]
      ensures created == old(created)
    {
      if g in instances {
        resets := resets + [g];
        instances := instances - {g};
      }
    }

    /** `has`. */
    method Has(g: GuildId) returns (b: bool)
      ensures b <==> g in instances
    {
      b := g in instances;
    }

    /** `disposeAll`: every manager is forgotten. */
    method DisposeAll()
      modifies this
      ensures instances == map[] && created == old(created) && resets == old(resets)
    {
      instances := map[];
    }
  }

  /** Two `get` calls for a guild give the same manager and create at most
      one, none when the guild was known. */
  method GetIsStable(p: GuildManagerProvider, g: GuildId, i1: Option<Interaction>, i2: Option<Interaction>)
    returns (m1: MusicEmbed, m2: MusicEmbed)
    modifies p, p.instances.Values
    ensures m1 == m2 && g in p.instances && p.instances.Keys == old(p.instances).Keys + {g}
    ensures p.created <= old(p.created) + 1
    ensures g in old(p.instances) ==> p.created == old(p.created)
  {
    m1 := p.Get(g, i1);
    m2 := p.Get(g, i2);
  }
}
