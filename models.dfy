/** The Django mirror of a guild's channels (`cogs/models.py`): the `Servers` and `Channels`
    tables, kept up to date by the populate command and the channel and guild listeners. */
module Models {
  import opened Wrappers
  import opened Seqs
  import opened Discord

  /** `du_get(guild.categories, id=category_id)`: the first category with that id. */
  function FindCategory(guild: seq<GuildChannel>, categoryId: Option<nat>): (r: Option<GuildChannel>)
    ensures r.Some? ==> r.value in guild && r.value.kind == CategoryKind && categoryId == Some(r.value.id)
    ensures r.None? ==> forall c :: c in guild && c.kind == CategoryKind ==> categoryId != Some(c.id)
  {
    if |guild| == 0 then None
    else if guild[0].kind == CategoryKind && categoryId == Some(guild[0].id) then Some(guild[0])
    else FindCategory(guild[1..], categoryId)
  }

  /** `channel_name`: a category keeps its own name; any other channel is `#name`, prefixed with
      `Category » ` when its category is among the guild's categories. */
  function ChannelName(c: GuildChannel, guild: seq<GuildChannel>): string
  {
    if c.kind == CategoryKind then c.name
    else
      match FindCategory(guild, c.categoryId)
      case Some(cat) => cat.name + " » #" + c.name
      case None => "#" + c.name
  }

  /** The formatted name ends in `#name` for every channel but a category, and the prefix is
      there exactly when the guild has a category with the channel's `category_id`. */
  lemma ChannelNameSpec(c: GuildChannel, guild: seq<GuildChannel>)
    ensures c.kind == CategoryKind ==> ChannelName(c, guild) == c.name
    ensures c.kind != CategoryKind && (forall d :: d in guild && d.kind == CategoryKind ==> c.categoryId != Some(d.id)) ==>
      ChannelName(c, guild) == "#" + c.name
    ensures c.kind != CategoryKind && (exists d :: d in guild && d.kind == CategoryKind && c.categoryId == Some(d.id)) ==>
      exists d :: d in guild && d.kind == CategoryKind && c.categoryId == Some(d.id) &&
        ChannelName(c, guild) == d.name + " » #" + c.name
  {
    if c.kind != CategoryKind {
      match FindCategory(guild, c.categoryId)
      case Some(cat) => { }
      case None => { }
    }
  }

  /** A `Channels` row: the formatted name and the `Servers` row it belongs to (none when a
      listener created the row without one). */
  datatype ChannelEntry = ChannelEntry(name: string, server: Option<nat>)

  /** `update_or_create(channel=id, defaults={"name": name})`: only the name is written. */
  function UpsertName(channels: map<nat, ChannelEntry>, id: nat, name: string): (r: map<nat, ChannelEntry>)
    ensures r.Keys == channels.Keys + {id}
    ensures r[id].name == name
    ensures id in channels ==> r[id].server == channels[id].server
    ensures forall k :: k in channels && k != id ==> r[k] == channels[k]
  {
    if id in channels then channels[id := channels[id].(name := name)] else channels[id := ChannelEntry(name, None)]
  }

  /** The rows after populate's loop over the guild's channels. */
  function Populated(channels: map<nat, ChannelEntry>, server: nat, chans: seq<GuildChannel>, guild: seq<GuildChannel>)
    : map<nat, ChannelEntry>
    decreases |chans|
  {
    if |chans| == 0 then channels
    else
      var before := Populated(channels, server, chans[..|chans| - 1], guild);
      var c := chans[|chans| - 1];
      if c.kind == CategoryKind then before else before[c.id := ChannelEntry(ChannelName(c, guild), Some(server))]
  }

  /** The ids of the channels that are not categories. */
  function NonCategoryIds(chans: seq<GuildChannel>): set<nat>
  {
    set c | c in chans && c.kind != CategoryKind :: c.id
  }

  function Ids(chans: seq<GuildChannel>): (r: seq<nat>)
    ensures |r| == |chans|
  {
    seq(|chans|, i requires 0 <= i < |chans| => chans[i].id)
  }

  /** With distinct ids, the last channel's id is no other channel's. */
  lemma LastIdFresh(chans: seq<GuildChannel>)
    requires |chans| > 0 && Distinct(Ids(chans))
    ensures Distinct(Ids(chans[..|chans| - 1]))
    ensures forall d :: d in chans[..|chans| - 1] ==> d.id != chans[|chans| - 1].id
  {
    var p := chans[..|chans| - 1];
    assert Ids(p) == Ids(chans)[..|chans| - 1];
    forall d | d in p
      ensures d.id != chans[|chans| - 1].id
    {
      var i :| 0 <= i < |p| && p[i] == d;
      assert Ids(chans)[i] == d.id && Ids(chans)[|chans| - 1] == chans[|chans| - 1].id;
      assert Ids(chans)[i] != Ids(chans)[|chans| - 1];
    }
  }

  /** After populate every channel that is not a category has its row, with its formatted name
      and the guild's server. */
  lemma {:induction false} PopulatedRows(channels: map<nat, ChannelEntry>, server: nat, chans: seq<GuildChannel>,
    guild: seq<GuildChannel>)
    requires Distinct(Ids(chans))
    ensures var r := Populated(channels, server, chans, guild);
      forall c :: c in chans && c.kind != CategoryKind ==>
        c.id in r && r[c.id] == ChannelEntry(ChannelName(c, guild), Some(server))
    decreases |chans|
  {
    if |chans| > 0 {
      var p := chans[..|chans| - 1];
      var c := chans[|chans| - 1];
      LastIdFresh(chans);
      PopulatedRows(channels, server, p, guild);
      assert chans == p + [c];
      forall d | d in chans && d.kind != CategoryKind
        ensures d.id in Populated(channels, server, chans, guild)
        ensures Populated(channels, server, chans, guild)[d.id] == ChannelEntry(ChannelName(d, guild), Some(server))
      {
        if d != c {
          assert d in p;
        }
      }
    }
  }

  /** Populate leaves the row of every other id, categories included, as it was. */
  lemma {:induction false} PopulatedKeepsOthers(channels: map<nat, ChannelEntry>, server: nat, chans: seq<GuildChannel>,
    guild: seq<GuildChannel>)
    ensures var r := Populated(channels, server, chans, guild);
      forall k :: k !in NonCategoryIds(chans) ==> (k in r <==> k in channels) && (k in channels ==> r[k] == channels[k])
    decreases |chans|
  {
    if |chans| > 0 {
      var p := chans[..|chans| - 1];
      var c := chans[|chans| - 1];
      PopulatedKeepsOthers(channels, server, p, guild);
      assert chans == p + [c];
      assert NonCategoryIds(p) <= NonCategoryIds(chans);
      assert c.kind != CategoryKind ==> c.id in NonCategoryIds(chans);
    }
  }

  /** The sub-channels of category `id` get re-named, one after the other. */
  function Renamed(channels: map<nat, ChannelEntry>, id: nat, chans: seq<GuildChannel>, guild: seq<GuildChannel>)
    : map<nat, ChannelEntry>
    decreases |chans|
  {
    if |chans| == 0 then channels
    else
      var before := Renamed(channels, id, chans[..|chans| - 1], guild);
      var c := chans[|chans| - 1];
      if c.kind != CategoryKind && c.categoryId == Some(id) then UpsertName(before, c.id, ChannelName(c, guild)) else before
  }

  /** The ids of the channels that sit in category `id`. */
  function SubchannelIds(chans: seq<GuildChannel>, id: nat): set<nat>
  {
    set c | c in chans && c.kind != CategoryKind && c.categoryId == Some(id) :: c.id
  }

  /** `on_guild_channel_update` on the rows: upsert the updated channel, then, for a category,
      the names of its sub-channels. */
  function Updated(channels: map<nat, ChannelEntry>, after: GuildChannel, guild: seq<GuildChannel>): map<nat, ChannelEntry>
  {
    var r := UpsertName(channels, after.id, ChannelName(after, guild));
    if after.kind == CategoryKind then Renamed(r, after.id, guild, guild) else r
  }

  lemma {:induction false} RenamedSpec(channels: map<nat, ChannelEntry>, id: nat, chans: seq<GuildChannel>,
    guild: seq<GuildChannel>)
    requires Distinct(Ids(chans))
    ensures var r := Renamed(channels, id, chans, guild);
      && r.Keys == channels.Keys + SubchannelIds(chans, id)
      && (forall c :: c in chans && c.kind != CategoryKind && c.categoryId == Some(id) ==>
            r[c.id].name == ChannelName(c, guild) && (c.id in channels ==> r[c.id].server == channels[c.id].server))
      && (forall k :: k in channels && k !in SubchannelIds(chans, id) ==> r[k] == channels[k])
    decreases |chans|
  {
    if |chans| > 0 {
      var p := chans[..|chans| - 1];
      var c := chans[|chans| - 1];
      LastIdFresh(chans);
      RenamedSpec(channels, id, p, guild);
      assert chans == p + [c];
      assert SubchannelIds(chans, id) == SubchannelIds(p, id) + (if c.kind != CategoryKind && c.categoryId == Some(id) then {c.id} else {});
    }
  }

  /** Updating a channel writes its own name; for a category it also re-names every channel of
      the guild that sits in it, keeps their server, and changes no other row. */
  lemma UpdatedSpec(channels: map<nat, ChannelEntry>, after: GuildChannel, guild: seq<GuildChannel>)
    requires Distinct(Ids(guild))
    ensures var r := Updated(channels, after, guild);
      && after.id in r
      && (after.kind != CategoryKind ==> r.Keys == channels.Keys + {after.id} && r[after.id].name == ChannelName(after, guild))
      && (after.kind == CategoryKind ==>
            && r.Keys == channels.Keys + {after.id} + SubchannelIds(guild, after.id)
            && (after.id !in SubchannelIds(guild, after.id) ==> r[after.id].name == after.name)
            && (forall c :: c in guild && c.kind != CategoryKind && c.categoryId == Some(after.id) ==>
                  r[c.id].name == ChannelName(c, guild)))
      && (forall k :: k in channels && k != after.id && (after.kind == CategoryKind ==> k !in SubchannelIds(guild, after.id)) ==>
            r[k] == channels[k])
  {
    if after.kind == CategoryKind {
      RenamedSpec(UpsertName(channels, after.id, ChannelName(after, guild)), after.id, guild, guild);
    }
  }

  /** The `Servers` and `Channels` tables. */
  class Registry {
    var servers: map<nat, string>
    var channels: map<nat, ChannelEntry>

    constructor ()
      ensures servers == map[] && channels == map[]
    {
      servers := map[];
      channels := map[];
    }

    /** `/models populate`: the server row, then a row per channel that is not a category.
        Returns the two ephemeral replies. */
    method Populate(guildId: nat, guildName: string, guild: seq<GuildChannel>) returns (replies: seq<string>)
      modifies this
      ensures servers == old(servers)[guildId := guildName]
      ensures channels == Populated(old(channels), guildId, guild, guild)
      ensures replies == ["Populating Models, this might take a while on large servers",
                          "Django Models Populated for " + guildName]
    {
      servers := servers[guildId := guildName];
      var i := 0;
      while i < |guild|
        invariant i <= |guild|
        invariant servers == old(servers)[guildId := guildName]
        invariant channels == Populated(old(channels), guildId, guild[..i], guild)
      {
        assert guild[..i + 1][..i] == guild[..i];
        var c := guild[i];
        if c.kind != CategoryKind {
          channels := channels[c.id := ChannelEntry(ChannelName(c, guild), Some(guildId))];
        }
        i := i + 1;
      }
      assert guild[..i] == guild;
      replies := ["Populating Models, this might take a while on large servers", "Django Models Populated for " + guildName];
    }

    /** `on_guild_channel_delete`: the row goes; a missing row is no error. */
    method ChannelDeleted(id: nat)
      modifies this
      ensures servers == old(servers)
      ensures channels == old(channels) - {id}
    {
      channels := channels - {id};
    }

    /** `on_guild_channel_create`: a new row; when the guild has no server row or the channel
        already has one, the error is only logged and nothing changes. */
    method ChannelCreated(c: GuildChannel, guildId: nat, guild: seq<GuildChannel>)
      modifies this
      ensures servers == old(servers)
      ensures guildId in old(servers) && c.id !in old(channels) ==>
        channels == old(channels)[c.id := ChannelEntry(ChannelName(c, guild), Some(guildId))]
      ensures !(guildId in old(servers) && c.id !in old(channels)) ==> channels == old(channels)
    {
      if guildId in servers && c.id !in channels {
        channels := channels[c.id := ChannelEntry(ChannelName(c, guild), Some(guildId))];
      }
    }

    /** `on_guild_channel_update`. */
    method ChannelUpdated(after: GuildChannel, guild: seq<GuildChannel>)
      modifies this
      ensures servers == old(servers)
      ensures channels == Updated(old(channels), after, guild)
    {
      channels := UpsertName(channels, after.id, ChannelName(after, guild));
      if after.kind == CategoryKind {
        ghost var start := channels;
        var i := 0;
        while i < |guild|
          invariant i <= |guild|
          invariant servers == old(servers)
          invariant channels == Renamed(start, after.id, guild[..i], guild)
        {
          assert guild[..i + 1][..i] == guild[..i];
          var sub := guild[i];
          if sub.kind != CategoryKind && sub.categoryId == Some(after.id) {
            channels := UpsertName(channels, sub.id, ChannelName(sub, guild));
          }
          i := i + 1;
        }
        assert guild[..i] == guild;
      }
    }

    /** `on_guild_update`: the server row is written only when the name changed. */
    method GuildUpdated(beforeName: string, afterId: nat, afterName: string)
      modifies this
      ensures channels == old(channels)
      ensures beforeName != afterName ==> servers == old(servers)[afterId := afterName]
      ensures beforeName == afterName ==> servers == old(servers)
    {
      if beforeName != afterName {
        servers := servers[afterId := afterName];
      }
    }
  }
}
