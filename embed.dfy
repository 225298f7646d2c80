/** src/music/MusicEmbed.ts: the now-playing embed of a guild and the
    interaction whose reply shows it. The embed is a value held by the
    object and replaced by each update; the parts of the template an update
    never touches (colour, author, footer and so on) are left out. */
module Embeds {
  import opened Optional
  import opened Js

  /** What the embed needs to know of a Discord interaction. */
  datatype Interaction = Interaction(id: nat, deferred: bool, replied: bool)

  datatype EmbedField = EmbedField(name: string, value: Value)

  /** The updatable part of the APIEmbed: `fields` (possibly absent) and
      `image.url`. */
  datatype Embed = Embed(fields: Option<seq<EmbedField>>, imageUrl: Value)

  /** The template the embed starts from. */
  const Template: Embed :=
    Embed(Some([EmbedField("Now playing:", Str("Some value here"))]), Str("https://i.imgur.com/AfFp7pu.png"))

  /** A song as `songToEmbed` reads it: a discord-player `Track` (with
      `raw`) or a `TrackInfo` (with `thumbnailUrl`); the other shape's
      member is `Undefined`. */
  datatype Song = Song(title: Value, raw: Value, thumbnailUrl: Value)

  /** The image shown for a song: `raw.thumbnail.url`, else `thumbnailUrl`,
      else the empty string. */
  function ThumbnailFor(song: Song): (url: Value)
    ensures !Nullish(url)
    ensures !Nullish(Get(Get(song.raw, "thumbnail"), "url")) ==> url == Get(Get(song.raw, "thumbnail"), "url")
    ensures Nullish(Get(Get(song.raw, "thumbnail"), "url")) && !Nullish(song.thumbnailUrl) ==> url == song.thumbnailUrl
    ensures Nullish(Get(Get(song.raw, "thumbnail"), "url")) && Nullish(song.thumbnailUrl) ==> url == Str("")
  {
    Coalesce(Coalesce(Get(Get(song.raw, "thumbnail"), "url"), song.thumbnailUrl), Str(""))
  }

  /** The embed after `songToEmbed`: the first field shows the song's title
      (a missing first field is created as "Now playing:"), its name and all
      later fields are kept, and the image is the song's thumbnail. */
  function WithSong(e: Embed, song: Song): (r: Embed)
    ensures r.fields.Some? && |r.fields.value| >= 1
    ensures r.fields.value[0].value == song.title
    ensures r.fields.value[0].name == (if e.fields.Some? && e.fields.value != [] then e.fields.value[0].name else "Now playing:")
    ensures e.fields.Some? && e.fields.value != [] ==> r.fields.value[1..] == e.fields.value[1..]
    ensures e.fields.None? || e.fields.value == [] ==> |r.fields.value| == 1
    ensures r.imageUrl == ThumbnailFor(song)
  {
    var fields := e.fields.GetOr([]);
    var first := if fields == [] then EmbedField("Now playing:", song.title) else fields[0].(value := song.title);
    Embed(Some([first] + (if fields == [] then [] else fields[1..])), ThumbnailFor(song))
  }

  /** Only the last song shown matters. */
  lemma {:induction false} LastSongWins(e: Embed, a: Song, b: Song)
    ensures WithSong(WithSong(e, a), b) == WithSong(e, b)
  {
    var r1 := WithSong(e, a);
    assert r1.fields.value == [r1.fields.value[0]] + r1.fields.value[1..];
    assert WithSong(r1, b).fields.value == WithSong(e, b).fields.value;
  }

  /** Why `updateCurrentEmbedWithSong` refused to run, or the embed it sent
      with `editReply` to the interaction it holds. */
  datatype Update = NoInteraction | NotReplied | Edited(interaction: Interaction, embed: Embed)

  class MusicEmbed {
    var interaction: Option<Interaction>
    var embed: Embed

    /** The interaction is the one given, or none; the embed is the template. */
    constructor(interaction: Option<Interaction>)
      ensures this.interaction == interaction && embed == Template
    {
      this.interaction := interaction;
      embed := Template;
    }

    method SetInteraction(interaction: Option<Interaction>)
      modifies this
      ensures this.interaction == interaction && embed == old(embed)
    {
      this.interaction := interaction;
    }

    /** `songToEmbed`: updates the embed in place and returns it. */
    method SongToEmbed(song: Song) returns (e: Embed)
      modifies this
      ensures embed == WithSong(old(embed), song) && e == embed
      ensures interaction == old(interaction)
    {
      var fields := embed.fields.GetOr([]);
      if fields == [] {
        assert [EmbedField("Now playing:", song.title)] + [] == [EmbedField("Now playing:", song.title)];
        fields := [EmbedField("Now playing:", song.title)];
      } else {
        var first := fields[0].(value := song.title);
        assert fields[0 := first] == [first] + fields[1..];
        fields := fields[0 := first];
      }
      embed := Embed(Some(fields), ThumbnailFor(song));
      e := embed;
    }

    /** `updateCurrentEmbedWithSong`: refused without an interaction and for
      an interaction neither deferred nor replied to, before the embed is
      touched; otherwise the embed shows the song and is sent. */
    method UpdateCurrentEmbedWithSong(song: Song) returns (r: Update)
      modifies this
      ensures interaction == old(interaction)
      ensures old(interaction).None? ==> r == NoInteraction && embed == old(embed)
      ensures old(interaction).Some? && !old(interaction).value.deferred && !old(interaction).value.replied ==>
                r == NotReplied && embed == old(embed)
      ensures old(interaction).Some? && (old(interaction).value.deferred || old(interaction).value.replied) ==>
                r == Edited(old(interaction).value, WithSong(old(embed), song)) && embed == WithSong(old(embed), song)
    {
      if interaction.None? {
        return NoInteraction;
      }
      if !interaction.value.deferred && !interaction.value.replied {
        return NotReplied;
      }
      var e := SongToEmbed(song);
      r := Edited(interaction.value, e);
    }

    /** `shutdown`: the reply is deleted only when there was one to delete
      (a failed deletion is ignored); the interaction is dropped either way. */
    method Shutdown() returns (deleteAttempted: bool)
      modifies this
      ensures interaction.None? && embed == old(embed)
      ensures deleteAttempted <==> old(interaction).Some? && (old(interaction).value.deferred || old(interaction).value.replied)
    {
      deleteAttempted := interaction.Some? && (interaction.value.deferred || interaction.value.replied);
      interaction := None;
    }
  }
}
