/** The `Admin` cog (`cogs/admin.py`): channel permission commands, the administrator toggle,
    channel creation with its duplicate check, and the role, member, webhook, command and
    extension listings. */
module Admin {
  import opened Wrappers
  import opened Text
  import opened Seqs
  import opened Discord

  // ---- guild state: channels, permission overwrites, role permissions ----

  /** A role argument: its id, name and current permission bits. */
  datatype RoleRef = RoleRef(id: nat, name: string, permissions: bv64)

  /** A channel permission overwrite for one role: `read_messages` and `send_messages`. */
  datatype Overwrite = Overwrite(read: bool, send: bool)

  /** Discord's `administrator` permission, bit 3. */
  const AdministratorBit: bv64 := 8
  const OtherBits: bv64 := 0xFFFF_FFFF_FFFF_FFF7

  /** `perms.administrator = on`: only the administrator bit changes. */
  function WithAdministrator(perms: bv64, on: bool): (r: bv64)
    ensures r & OtherBits == perms & OtherBits
    ensures on ==> r & AdministratorBit == AdministratorBit
    ensures !on ==> r & AdministratorBit == 0
  {
    if on then perms | AdministratorBit else perms & OtherBits
  }

  /** Promoting and then demoting leaves the permissions with the administrator bit cleared, and
      restores them exactly when the role was not an administrator before. */
  lemma PromoteThenDemote(perms: bv64)
    ensures WithAdministrator(WithAdministrator(perms, true), false) == WithAdministrator(perms, false)
  {
  }

  lemma DemoteNonAdministrator(perms: bv64)
    requires perms & AdministratorBit == 0
    ensures WithAdministrator(perms, false) == perms
  {
  }

  /** Setting the flag twice is setting it once. */
  lemma AdministratorIdempotent(perms: bv64, on: bool)
    ensures WithAdministrator(WithAdministrator(perms, on), on) == WithAdministrator(perms, on)
  {
  }

  /** A text or voice channel in the category whose name equals `name` ignoring case. */
  predicate Clashes(c: GuildChannel, name: string, categoryId: nat)
  {
    (c.kind == TextKind || c.kind == VoiceKind) && Lower(c.name) == Lower(name) && c.categoryId == Some(categoryId)
  }

  /** The first channel that clashes, if any. */
  function DuplicateIndex(channels: seq<GuildChannel>, name: string, categoryId: nat): (r: Option<nat>)
    ensures r.None? <==> forall i :: 0 <= i < |channels| ==> !Clashes(channels[i], name, categoryId)
    ensures r.Some? ==>
      && r.value < |channels| && Clashes(channels[r.value], name, categoryId)
      && forall j :: 0 <= j < r.value ==> !Clashes(channels[j], name, categoryId)
  {
    if |channels| == 0 then None
    else if Clashes(channels[0], name, categoryId) then Some(0)
    else
      match DuplicateIndex(channels[1..], name, categoryId)
      case Some(i) => Some(i + 1)
      case None => None
  }

  /** The search loop of `new_channel`. */
  method FindDuplicate(channels: seq<GuildChannel>, name: string, categoryId: nat) returns (r: Option<nat>)
    ensures r == DuplicateIndex(channels, name, categoryId)
  {
    var i := 0;
    while i < |channels|
      invariant i <= |channels|
      invariant forall j :: 0 <= j < i ==> !Clashes(channels[j], name, categoryId)
    {
      var c := channels[i];
      if c.kind == TextKind || c.kind == VoiceKind {
        if Lower(c.name) == Lower(name) {
          if c.categoryId == Some(categoryId) {
            return Some(i);
          }
        }
      }
      i := i + 1;
    }
    return None;
  }

  /** The check ignores case: a name clashes exactly when its lower-cased form does. */
  lemma ClashIgnoresCase(c: GuildChannel, name: string, categoryId: nat)
    ensures Clashes(c, name, categoryId) <==> Clashes(c, Lower(name), categoryId)
  {
    LowerIdempotent(name);
  }

  /** Latin-1 capitals fold too: "\U{00C4}rger" clashes with an existing "\U{00E4}rger". */
  lemma ClashFoldsLatin1()
    ensures Clashes(GuildChannel(1, "\U{00E4}rger", TextKind, Some(7)), "\U{00C4}rger", 7)
  {
    assert Lower("\U{00C4}rger") == "\U{00E4}rger";
  }

  /** The channels, their overwrites per (channel id, role id), and each role's permissions. */
  class Guild {
    var channels: seq<GuildChannel>
    var overwrites: map<(nat, nat), Overwrite>
    var rolePermissions: map<nat, bv64>
    const defaultRoleId: nat

    constructor (channels: seq<GuildChannel>, overwrites: map<(nat, nat), Overwrite>,
      rolePermissions: map<nat, bv64>, defaultRoleId: nat)
      ensures this.channels == channels && this.overwrites == overwrites
      ensures this.rolePermissions == rolePermissions && this.defaultRoleId == defaultRoleId
    {
      this.channels := channels;
      this.overwrites := overwrites;
      this.rolePermissions := rolePermissions;
      this.defaultRoleId := defaultRoleId;
    }

    /** `channel.set_permissions(role, read_messages=..., send_messages=...)`. */
    method SetPermissions(channelId: nat, roleId: nat, read: bool, send: bool)
      modifies this
      ensures overwrites == old(overwrites)[(channelId, roleId) := Overwrite(read, send)]
      ensures channels == old(channels) && rolePermissions == old(rolePermissions)
    {
      overwrites := overwrites[(channelId, roleId) := Overwrite(read, send)];
    }

    /** `/admin add_role`: read and write for the role in the channel. */
    method AddRole(channel: GuildChannel, role: RoleRef) returns (reply: string)
      modifies this
      ensures overwrites == old(overwrites)[(channel.id, role.id) := Overwrite(true, true)]
      ensures channels == old(channels) && rolePermissions == old(rolePermissions)
      ensures reply == "Set Read/Write `" + role.name + "` in `" + channel.name + "`"
    {
      SetPermissions(channel.id, role.id, true, true);
      reply := "Set Read/Write `" + role.name + "` in `" + channel.name + "`";
    }

    /** `/admin add_role_read`: read only. */
    method AddRoleRead(channel: GuildChannel, role: RoleRef) returns (reply: string)
      modifies this
      ensures overwrites == old(overwrites)[(channel.id, role.id) := Overwrite(true, false)]
      ensures channels == old(channels) && rolePermissions == old(rolePermissions)
      ensures reply == "Set Readonly `" + role.name + "` in `" + channel.name + "`"
    {
      SetPermissions(channel.id, role.id, true, false);
      reply := "Set Readonly `" + role.name + "` in `" + channel.name + "`";
    }

    /** `/admin rem_role`: neither read nor write (the overwrite stays, denying both). */
    method RemRole(channel: GuildChannel, role: RoleRef) returns (reply: string)
      modifies this
      ensures overwrites == old(overwrites)[(channel.id, role.id) := Overwrite(false, false)]
      ensures channels == old(channels) && rolePermissions == old(rolePermissions)
      ensures reply == "Removed `" + role.name + "` from `" + channel.name + "`"
    {
      SetPermissions(channel.id, role.id, false, false);
      reply := "Removed `" + role.name + "` from `" + channel.name + "`";
    }

    /** `/admin promote_to_god`: the role's permissions with the administrator bit set. */
    method PromoteToGod(role: RoleRef) returns (reply: string)
      modifies this
      ensures rolePermissions == old(rolePermissions)[role.id := WithAdministrator(role.permissions, true)]
      ensures channels == old(channels) && overwrites == old(overwrites)
      ensures reply == "Set `" + role.name + "` as admin"
    {
      var perms := role.permissions;
      perms := perms | AdministratorBit;
      assert perms == WithAdministrator(role.permissions, true);
      rolePermissions := rolePermissions[role.id := perms];
      reply := "Set `" + role.name + "` as admin";
    }

    /** `/admin demote_from_god`: the role's permissions with the administrator bit cleared. */
    method DemoteFromGod(role: RoleRef) returns (reply: string)
      modifies this
      ensures rolePermissions == old(rolePermissions)[role.id := WithAdministrator(role.permissions, false)]
      ensures channels == old(channels) && overwrites == old(overwrites)
      ensures reply == "Removed admin from `" + role.name + "`"
    {
      var perms := role.permissions;
      perms := perms & OtherBits;
      assert perms == WithAdministrator(role.permissions, false);
      rolePermissions := rolePermissions[role.id := perms];
      reply := "Removed admin from `" + role.name + "`";
    }

    /** `/admin new_channel`: refuse when a text or voice channel of the category has the name
        ignoring case; otherwise ask Discord for a text channel with the lower-cased name, deny the
        default role and let the first role read and write. Discord gives the new channel its id
        `newId` and its name `createdName` (it may rewrite the requested name, spaces becoming
        hyphens for instance), and the reply quotes the name the channel reports. */
    method NewChannel(categoryId: nat, channelName: string, firstRole: RoleRef, newId: nat, createdName: string)
      returns (reply: string)
      modifies this
      ensures var dup := DuplicateIndex(old(channels), channelName, categoryId);
        && (dup.Some? ==>
              && reply == "Channel already exists: " + ChannelMention(old(channels)[dup.value].id)
              && channels == old(channels) && overwrites == old(overwrites))
        && (dup.None? ==>
              && channels == old(channels) + [GuildChannel(newId, createdName, TextKind, Some(categoryId))]
              && overwrites == old(overwrites)[(newId, defaultRoleId) := Overwrite(false, false)]
                                              [(newId, firstRole.id) := Overwrite(true, true)]
              && reply == "Created new channel `" + createdName + "` and added the `" + firstRole.name + "` role")
      ensures rolePermissions == old(rolePermissions)
    {
      var dup := FindDuplicate(channels, channelName, categoryId);
      if dup.Some? {
        return "Channel already exists: <#" + NatToString(channels[dup.value].id) + ">";
      }
      var channel := GuildChannel(newId, createdName, TextKind, Some(categoryId));
      channels := channels + [channel];
      SetPermissions(channel.id, defaultRoleId, false, false);
      SetPermissions(channel.id, firstRole.id, true, true);
      reply := "Created new channel `" + channel.name + "` and added the `" + firstRole.name + "` role";
    }
  }

  /** After a channel is created in a category that had no clash for `other`, a later request for
      `other` refuses exactly when the name Discord gave the new channel equals `other` ignoring
      case. When Discord keeps the requested lower-cased name, every spelling of it that
      lower-cases the same is refused. */
  lemma CreatedChannelClashes(channels: seq<GuildChannel>, createdName: string, other: string, categoryId: nat, newId: nat)
    requires DuplicateIndex(channels, other, categoryId).None?
    ensures DuplicateIndex(channels + [GuildChannel(newId, createdName, TextKind, Some(categoryId))], other, categoryId).Some?
      <==> Lower(createdName) == Lower(other)
  {
    var cs := channels + [GuildChannel(newId, createdName, TextKind, Some(categoryId))];
    assert forall i :: 0 <= i < |channels| ==> cs[i] == channels[i];
    if Lower(createdName) == Lower(other) {
      assert Clashes(cs[|cs| - 1], other, categoryId);
    }
  }

  /** A request whose name lower-cases like the one just created is refused when Discord kept the
      requested lower-cased name. */
  lemma CreatedLowerNameClashes(channels: seq<GuildChannel>, name: string, other: string, categoryId: nat, newId: nat)
    requires DuplicateIndex(channels, other, categoryId).None?
    requires Lower(other) == Lower(name)
    ensures DuplicateIndex(channels + [GuildChannel(newId, Lower(name), TextKind, Some(categoryId))], other, categoryId).Some?
  {
    LowerIdempotent(name);
    CreatedChannelClashes(channels, Lower(name), other, categoryId, newId);
  }

  // ---- empty_roles / clear_empty_roles ----

  /** A guild role with its member count. */
  datatype RoleInfo = RoleInfo(id: nat, name: string, memberCount: nat)

  /** `empties`: the names of the roles without members, in role order. */
  function Empties(roles: seq<RoleInfo>): seq<string>
    decreases |roles|
  {
    if |roles| == 0 then []
    else
      var rest := Empties(roles[..|roles| - 1]);
      var r := roles[|roles| - 1];
      if r.memberCount == 0 then rest + [r.name] else rest
  }

  /** `no_auth_group`: the names of roles with members but no Auth group of that name. */
  function NoAuthGroup(roles: seq<RoleInfo>, authGroups: set<string>): seq<string>
    decreases |roles|
  {
    if |roles| == 0 then []
    else
      var rest := NoAuthGroup(roles[..|roles| - 1], authGroups);
      var r := roles[|roles| - 1];
      if r.memberCount != 0 && r.name !in authGroups then rest + [r.name] else rest
  }

  function RoleStatusEmbed(roles: seq<RoleInfo>, authGroups: set<string>): Embed
  {
    Embed("Server Role Status", None, DefaultColour,
      [EmbedField("Total Roles", NatToString(|roles|), true),
       EmbedField("Empty Groups", Join(Empties(roles), "\n"), false),
       EmbedField("Groups with no Auth Group", Join(NoAuthGroup(roles, authGroups), "\n"), false)],
      None)
  }

  /** `/admin empty_roles`. */
  method EmptyRoles(roles: seq<RoleInfo>, authGroups: set<string>) returns (embed: Embed)
    ensures embed == RoleStatusEmbed(roles, authGroups)
  {
    embed := NewEmbed("Server Role Status");
    embed := embed.(fields := embed.fields + [EmbedField("Total Roles", NatToString(|roles|), true)]);
    var empties: seq<string> := [];
    var noAuthGroup: seq<string> := [];
    var i := 0;
    while i < |roles|
      invariant i <= |roles|
      invariant empties == Empties(roles[..i])
      invariant noAuthGroup == NoAuthGroup(roles[..i], authGroups)
    {
      assert roles[..i + 1][..i] == roles[..i];
      if roles[i].memberCount == 0 {
        empties := empties + [roles[i].name];
      } else {
        if roles[i].name !in authGroups {
          noAuthGroup := noAuthGroup + [roles[i].name];
        }
      }
      i := i + 1;
    }
    assert roles[..i] == roles;
    embed := embed.(fields := embed.fields + [EmbedField("Empty Groups", Join(empties, "\n"), false),
      EmbedField("Groups with no Auth Group", Join(noAuthGroup, "\n"), false)]);
  }

  /** Every role without members is listed as empty, every role with members but no Auth group of
      its name is listed in the second list, and nothing else is listed: each listed name is the
      name of such a role. No role is counted in both lists. */
  lemma {:induction false} RoleListsSpec(roles: seq<RoleInfo>, authGroups: set<string>)
    ensures forall r :: r in roles && r.memberCount == 0 ==> r.name in Empties(roles)
    ensures forall r :: r in roles && r.memberCount != 0 && r.name !in authGroups ==> r.name in NoAuthGroup(roles, authGroups)
    ensures forall x :: x in Empties(roles) ==> exists r :: r in roles && r.name == x && r.memberCount == 0
    ensures forall x :: x in NoAuthGroup(roles, authGroups) ==>
      exists r :: r in roles && r.name == x && r.memberCount != 0 && x !in authGroups
    ensures |Empties(roles)| + |NoAuthGroup(roles, authGroups)| <= |roles|
    decreases |roles|
  {
    if |roles| > 0 {
      var p := roles[..|roles| - 1];
      RoleListsSpec(p, authGroups);
      assert roles == p + [roles[|roles| - 1]];
    }
  }

  /** Which empty roles `role.delete()` removes; the others raise. */
  function Deleted(roles: seq<RoleInfo>, deletes: RoleInfo -> bool): nat
    decreases |roles|
  {
    if |roles| == 0 then 0
    else
      var r := roles[|roles| - 1];
      Deleted(roles[..|roles| - 1], deletes) + if r.memberCount == 0 && deletes(r) then 1 else 0
  }

  function DeleteFailures(roles: seq<RoleInfo>, deletes: RoleInfo -> bool): seq<string>
    decreases |roles|
  {
    if |roles| == 0 then []
    else
      var rest := DeleteFailures(roles[..|roles| - 1], deletes);
      var r := roles[|roles| - 1];
      if r.memberCount == 0 && !deletes(r) then rest + [r.name] else rest
  }

  function JoinLines(chunks: seq<seq<string>>): (r: seq<string>)
    ensures |r| == |chunks|
  {
    seq(|chunks|, i requires 0 <= i < |chunks| => Join(chunks[i], "\n"))
  }

  /** The replies of `/admin clear_empty_roles`: the count, then the failed names fifty per message. */
  function ClearReplies(roles: seq<RoleInfo>, deletes: RoleInfo -> bool): seq<string>
  {
    ["Deleted " + NatToString(Deleted(roles, deletes)) + " Roles."] + JoinLines(Chunks(DeleteFailures(roles, deletes), 50))
  }

  /** `/admin clear_empty_roles`. */
  method ClearEmptyRoles(roles: seq<RoleInfo>, deletes: RoleInfo -> bool) returns (replies: seq<string>)
    ensures replies == ClearReplies(roles, deletes)
  {
    var empties := 0;
    var fails: seq<string> := [];
    var i := 0;
    while i < |roles|
      invariant i <= |roles|
      invariant empties == Deleted(roles[..i], deletes)
      invariant fails == DeleteFailures(roles[..i], deletes)
    {
      assert roles[..i + 1][..i] == roles[..i];
      if roles[i].memberCount == 0 {
        if deletes(roles[i]) {
          empties := empties + 1;
        } else {
          fails := fails + [roles[i].name];
        }
      }
      i := i + 1;
    }
    assert roles[..i] == roles;
    replies := ["Deleted " + NatToString(empties) + " Roles."];
    var chunks := Chunks(fails, 50);
    var c := 0;
    while c < |chunks|
      invariant c <= |chunks|
      invariant replies == ["Deleted " + NatToString(empties) + " Roles."] + JoinLines(chunks[..c])
    {
      assert chunks[..c + 1] == chunks[..c] + [chunks[c]];
      replies := replies + [Join(chunks[c], "\n")];
      c := c + 1;
    }
    assert chunks[..c] == chunks;
  }

  /** Every empty role is either deleted or reported: the deleted count plus the failures is the
      number of empty roles; the failures go out in ceil(f/50) messages of at most 50 names. */
  lemma {:induction false} ClearCounts(roles: seq<RoleInfo>, deletes: RoleInfo -> bool)
    ensures Deleted(roles, deletes) + |DeleteFailures(roles, deletes)| == |Empties(roles)|
    ensures |ClearReplies(roles, deletes)| == 1 + CeilDiv(|DeleteFailures(roles, deletes)|, 50)
    ensures forall k :: 0 <= k < |Chunks(DeleteFailures(roles, deletes), 50)| ==>
      1 <= |Chunks(DeleteFailures(roles, deletes), 50)[k]| <= 50
    decreases |roles|
  {
    if |roles| > 0 {
      ClearCounts(roles[..|roles| - 1], deletes);
    }
    ChunksCount(DeleteFailures(roles, deletes), 50);
    forall k | 0 <= k < |Chunks(DeleteFailures(roles, deletes), 50)|
      ensures 1 <= |Chunks(DeleteFailures(roles, deletes), 50)[k]| <= 50
    {
      ChunkSizes(DeleteFailures(roles, deletes), 50, k);
    }
  }

  // ---- orphans ----

  datatype GuildMember = GuildMember(id: nat, mention: string, bot: bool)

  const OrphansHeader := "The following Users cannot be located in Alliance Auth \n"

  predicate Orphan(m: GuildMember, discordUsers: set<nat>)
  {
    m.id !in discordUsers && !m.bot
  }

  /** The payload: the header, then one line per member with no `DiscordUser` who is not a bot. */
  function Payload(members: seq<GuildMember>, discordUsers: set<nat>): string
    decreases |members|
  {
    if |members| == 0 then OrphansHeader
    else
      var m := members[|members| - 1];
      Payload(members[..|members| - 1], discordUsers) + if Orphan(m, discordUsers) then m.mention + "\n" else ""
  }

  /** The orphans, in member order. */
  function Orphans(members: seq<GuildMember>, discordUsers: set<nat>): seq<GuildMember>
    decreases |members|
  {
    if |members| == 0 then []
    else
      var m := members[|members| - 1];
      Orphans(members[..|members| - 1], discordUsers) + if Orphan(m, discordUsers) then [m] else []
  }

  function MentionLines(ms: seq<GuildMember>): string
    decreases |ms|
  {
    if |ms| == 0 then "" else MentionLines(ms[..|ms| - 1]) + ms[|ms| - 1].mention + "\n"
  }

  /** The payload is the header followed by the orphans' mentions, one per line. */
  lemma {:induction false} PayloadSpec(members: seq<GuildMember>, discordUsers: set<nat>)
    ensures Payload(members, discordUsers) == OrphansHeader + MentionLines(Orphans(members, discordUsers))
    decreases |members|
  {
    if |members| > 0 {
      var p := members[..|members| - 1];
      var m := members[|members| - 1];
      PayloadSpec(p, discordUsers);
      var o := Orphans(p, discordUsers);
      if Orphan(m, discordUsers) {
        assert (o + [m])[..|o + [m]| - 1] == o;
        assert MentionLines(o + [m]) == MentionLines(o) + m.mention + "\n";
      } else {
        assert Orphans(members, discordUsers) == o;
      }
    }
  }

  /** A member is listed exactly when it has no `DiscordUser` and is not a bot. */
  lemma {:induction false} OrphansSpec(members: seq<GuildMember>, discordUsers: set<nat>)
    ensures forall m :: m in Orphans(members, discordUsers) <==> m in members && m.id !in discordUsers && !m.bot
    decreases |members|
  {
    if |members| > 0 {
      var p := members[..|members| - 1];
      OrphansSpec(p, discordUsers);
      assert members == p + [members[|members| - 1]];
    }
  }

  /** `/admin orphans`: the message sent, which is the payload cut to 1999 characters when
      sending it whole fails. */
  method OrphansCommand(members: seq<GuildMember>, discordUsers: set<nat>, sendFails: bool) returns (sent: string)
    ensures sent == if sendFails then TakePrefix(Payload(members, discordUsers), 1999) else Payload(members, discordUsers)
  {
    var payload := OrphansHeader;
    var i := 0;
    while i < |members|
      invariant i <= |members|
      invariant payload == Payload(members[..i], discordUsers)
    {
      assert members[..i + 1][..i] == members[..i];
      var member := members[i];
      var discordExists := member.id in discordUsers;
      var discordIsBot := member.bot;
      if discordExists {
      } else if discordIsBot {
      } else {
        payload := payload + member.mention + "\n";
      }
      i := i + 1;
    }
    assert members[..i] == members;
    if sendFails {
      sent := TakePrefix(payload, 1999);
    } else {
      sent := payload;
    }
  }

  /** A fallback message is the start of the payload and at most 1999 characters long. */
  lemma OrphansFallback(members: seq<GuildMember>, discordUsers: set<nat>)
    ensures var p := Payload(members, discordUsers);
      var t := TakePrefix(p, 1999);
      && t <= p && |t| <= 1999 && (|p| <= 1999 ==> t == p)
  {
  }

  // ---- get_webhooks ----

  datatype Webhook = Webhook(name: string, url: string)

  function HookLine(h: Webhook): string
  {
    h.name + " - " + h.url
  }

  function HookLines(hooks: seq<Webhook>): (r: seq<string>)
    ensures |r| == |hooks|
  {
    seq(|hooks|, i requires 0 <= i < |hooks| => HookLine(hooks[i]))
  }

  /** `/admin get_webhooks`. */
  method GetWebhooks(hooks: seq<Webhook>) returns (reply: string)
    ensures |hooks| == 0 ==> reply == "No webhooks for this channel."
    ensures |hooks| > 0 ==> reply == Join(HookLines(hooks), "\n")
  {
    if |hooks| == 0 {
      return "No webhooks for this channel.";
    }
    var strs: seq<string> := [];
    var i := 0;
    while i < |hooks|
      invariant i <= |hooks|
      invariant strs == HookLines(hooks[..i])
    {
      strs := strs + [hooks[i].name + " - " + hooks[i].url];
      i := i + 1;
    }
    assert hooks[..i] == hooks;
    reply := Join(strs, "\n");
  }

  /** When no hook name or URL holds a newline, the reply splits back into one `name - url`
      line per hook, in channel order. */
  lemma WebhookLinesRecoverable(hooks: seq<Webhook>)
    requires |hooks| > 0
    requires forall i :: 0 <= i < |hooks| ==> '\n' !in hooks[i].name && '\n' !in hooks[i].url
    ensures SplitOn(Join(HookLines(hooks), "\n"), '\n') == HookLines(hooks)
  {
    var ls := HookLines(hooks);
    forall i | 0 <= i < |ls| ensures '\n' !in ls[i] {
      assert ls[i] == hooks[i].name + " - " + hooks[i].url;
    }
    SplitJoin(ls, '\n');
  }

  // ---- command_list ----

  datatype AppCommand = AppCommand(isGroup: bool, fullParentName: string, name: string, moduleName: string, className: string)

  const CommandHeader := "Parent          Command                        Module                                   Type"

  /** `_msg` of a command; the parent is always followed by a space, since `full_parent_name.rjust`
      is a bound method and so always true. */
  function CommandLine(c: AppCommand): string
  {
    Ljust(c.fullParentName, 15) + " " + Ljust(c.name, 30) + " " + Ljust(c.moduleName, 40) + " " + c.className
  }

  /** The lines of the commands that are not groups, in walk order, repeats included. */
  function CommandLines(cs: seq<AppCommand>): seq<string>
    decreases |cs|
  {
    if |cs| == 0 then []
    else
      var c := cs[|cs| - 1];
      CommandLines(cs[..|cs| - 1]) + if c.isGroup then [] else [CommandLine(c)]
  }

  /** The paginator's lines: the header, a rule of 110 dashes, then each distinct command line
      once, in first-seen order. */
  function HelpLines(cs: seq<AppCommand>): seq<string>
  {
    HelpHead + Dedup(CommandLines(cs))
  }

  const HelpHead := [CommandHeader, Repeat('-', 110)]

  lemma CommandLinesStep(cs: seq<AppCommand>, i: nat)
    requires i < |cs|
    ensures CommandLines(cs[..i + 1]) == CommandLines(cs[..i]) + if cs[i].isGroup then [] else [CommandLine(cs[i])]
  {
    assert cs[..i + 1][..i] == cs[..i];
  }

  lemma DedupStep<T>(xs: seq<T>, x: T)
    ensures Dedup(xs + [x]) == if x in Dedup(xs) then Dedup(xs) else Dedup(xs) + [x]
  {
    assert (xs + [x])[..|xs|] == xs;
  }

  /** `/admin commands`: the lines added to the paginator. */
  method CommandList(cs: seq<AppCommand>) returns (lines: seq<string>)
    ensures lines == HelpLines(cs)
  {
    lines := HelpHead;
    var coms: set<string> := {};
    ghost var added: seq<string> := [];
    var i := 0;
    while i < |cs|
      invariant i <= |cs|
      invariant added == Dedup(CommandLines(cs[..i]))
      invariant forall x :: x in coms <==> x in added
      invariant lines == HelpHead + added
    {
      CommandLinesStep(cs, i);
      var command := cs[i];
      if !command.isGroup {
        var msg := CommandLine(command);
        DedupStep(CommandLines(cs[..i]), msg);
        if msg !in coms {
          coms := coms + {msg};
          added := added + [msg];
          lines := lines + [msg];
        }
      } else {
        assert CommandLines(cs[..i]) + [] == CommandLines(cs[..i]);
      }
      i := i + 1;
    }
    assert cs[..i] == cs;
  }

  /** Group commands are left out, and every other command's line appears exactly once, at its
      first occurrence. */
  lemma HelpLinesSpec(cs: seq<AppCommand>)
    ensures var body := HelpLines(cs)[2..];
      && Distinct(body)
      && (forall x :: x in body ==> x in CommandLines(cs))
      && (forall x :: x in CommandLines(cs) ==> x in body)
      && |Repeat('-', 110)| == 110
  {
    DedupSpec(CommandLines(cs));
    assert HelpLines(cs)[2..] == Dedup(CommandLines(cs));
  }

  // ---- versions ----

  /** An `output` entry: a distribution, its version and the extensions it provides. */
  datatype PackageEntry = PackageEntry(package: string, version: string, extensions: seq<string>)

  /** `_ext.split(".")[0]`. */
  function FirstSegment(ext: string): string
  {
    SplitOn(ext, '.')[0]
  }

  function IndexOfPackage(t: seq<PackageEntry>, p: string): (r: Option<nat>)
    ensures r.Some? ==> r.value < |t| && t[r.value].package == p
    ensures r.None? ==> forall i :: 0 <= i < |t| ==> t[i].package != p
  {
    if |t| == 0 then None
    else if t[0].package == p then Some(0)
    else
      match IndexOfPackage(t[1..], p)
      case Some(i) => Some(i + 1)
      case None => None
  }

  const IndexErrorText := "list index out of range"

  /** One loop step: an extension whose top-level module is not in `packages_distributions()` is
      skipped; otherwise it is filed under the first distribution, whose version is looked up
      (`version` is the metadata lookup, which may fail). */
  function AddExtension(t: seq<PackageEntry>, ext: string, packages: map<string, seq<string>>,
    version: string -> Result<string>): Result<seq<PackageEntry>>
  {
    var e := FirstSegment(ext);
    if e !in packages then Success(t)
    else if |packages[e]| == 0 then Failure(IndexErrorText)
    else
      var p := packages[e][0];
      match version(p)
      case Failure(err) => Failure(err)
      case Success(v) =>
        match IndexOfPackage(t, p)
        case Some(i) => Success(t[i := PackageEntry(p, v, t[i].extensions + [ext])])
        case None => Success(t + [PackageEntry(p, v, [ext])])
  }

  /** `output` after the loop over the loaded extensions, or the exception that ends it. */
  function Grouped(exts: seq<string>, packages: map<string, seq<string>>, version: string -> Result<string>)
    : Result<seq<PackageEntry>>
    decreases |exts|
  {
    if |exts| == 0 then Success([])
    else
      match Grouped(exts[..|exts| - 1], packages, version)
      case Failure(err) => Failure(err)
      case Success(t) => AddExtension(t, exts[|exts| - 1], packages, version)
  }

  /** The message lines: a heading per distribution followed by its extensions. */
  function VersionLines(t: seq<PackageEntry>): seq<string>
    decreases |t|
  {
    if |t| == 0 then []
    else
      var d := t[|t| - 1];
      VersionLines(t[..|t| - 1]) + ["## " + d.package + " `" + d.version + "`"] + ExtensionLines(d.extensions)
  }

  function ExtensionLines(exts: seq<string>): (r: seq<string>)
    ensures |r| == |exts|
  {
    seq(|exts|, i requires 0 <= i < |exts| => "- " + exts[i])
  }

  function VersionsReply(exts: seq<string>, packages: map<string, seq<string>>, version: string -> Result<string>): Response
  {
    match Grouped(exts, packages, version)
    case Failure(err) => TextResponse("Something went wrong! " + err)
    case Success(t) => EmbedResponse(Embed("Loaded Extensions", Some(Join(VersionLines(t), "\n")), DefaultColour, [], None))
  }

  lemma {:induction false} GroupedFailureSticks(exts: seq<string>, j: nat, packages: map<string, seq<string>>,
    version: string -> Result<string>)
    requires j <= |exts| && Grouped(exts[..j], packages, version).Failure?
    ensures Grouped(exts, packages, version) == Grouped(exts[..j], packages, version)
    decreases |exts| - j
  {
    if j < |exts| {
      assert exts[..j + 1][..j] == exts[..j];
      GroupedFailureSticks(exts, j + 1, packages, version);
      assert exts[..|exts|] == exts;
    } else {
      assert exts[..j] == exts;
    }
  }

  /** `keys` lists the distributions of `t` in order and `output` maps each to its entry. */
  ghost predicate OutputMatches(keys: seq<string>, output: map<string, PackageEntry>, t: seq<PackageEntry>)
  {
    && |keys| == |t|
    && Distinct(keys)
    && (forall j :: 0 <= j < |keys| ==> keys[j] == t[j].package && keys[j] in output && output[keys[j]] == t[j])
    && (forall p :: p in output <==> p in keys)
  }

  /** Filing one extension into the dict keeps it in step with `AddExtension`. */
  lemma FileExtension(keys: seq<string>, output: map<string, PackageEntry>, t: seq<PackageEntry>,
    p: string, v: string, ext: string)
    requires OutputMatches(keys, output, t)
    ensures p !in output ==>
      IndexOfPackage(t, p).None? &&
      OutputMatches(keys + [p], output[p := PackageEntry(p, v, [ext])], t + [PackageEntry(p, v, [ext])])
    ensures p in output ==>
      IndexOfPackage(t, p).Some? &&
      OutputMatches(keys, output[p := PackageEntry(p, v, output[p].extensions + [ext])],
        t[IndexOfPackage(t, p).value := PackageEntry(p, v, t[IndexOfPackage(t, p).value].extensions + [ext])])
  {
    if p in output {
      var j :| 0 <= j < |keys| && keys[j] == p;
      var i := IndexOfPackage(t, p).value;
      assert keys[i] == p;
      assert i == j;
    }
  }

  /** The loop of `/admin versions` over the loaded extensions: `output` and the order of its
      keys, or the text of the exception that ends it. */
  method CollectPackages(exts: seq<string>, packages: map<string, seq<string>>, version: string -> Result<string>)
    returns (err: Option<string>, keys: seq<string>, output: map<string, PackageEntry>)
    ensures err.Some? <==> Grouped(exts, packages, version).Failure?
    ensures err.Some? ==> err.value == Grouped(exts, packages, version).error
    ensures err.None? ==> OutputMatches(keys, output, Grouped(exts, packages, version).value)
  {
    keys, output := [], map[];
    var i := 0;
    while i < |exts|
      invariant i <= |exts|
      invariant Grouped(exts[..i], packages, version).Success?
      invariant OutputMatches(keys, output, Grouped(exts[..i], packages, version).value)
    {
      assert exts[..i + 1][..i] == exts[..i];
      ghost var t := Grouped(exts[..i], packages, version).value;
      var ext := exts[i];
      var e := FirstSegment(ext);
      if e in packages {
        if |packages[e]| == 0 {
          GroupedFailureSticks(exts, i + 1, packages, version);
          return Some(IndexErrorText), keys, output;
        }
        var p := packages[e][0];
        var v := version(p);
        if v.Failure? {
          GroupedFailureSticks(exts, i + 1, packages, version);
          return Some(v.error), keys, output;
        }
        FileExtension(keys, output, t, p, v.value, ext);
        if p !in output {
          keys := keys + [p];
          output := output[p := PackageEntry(p, "Unknown", [])];
        }
        output := output[p := PackageEntry(p, v.value, output[p].extensions + [ext])];
      }
      i := i + 1;
    }
    assert exts[..i] == exts;
    err := None;
  }

  /** `/admin versions`: the embed of loaded extensions per distribution, or the error text. */
  method Versions(exts: seq<string>, packages: map<string, seq<string>>, version: string -> Result<string>)
    returns (reply: Response)
    ensures reply == VersionsReply(exts, packages, version)
  {
    var err, keys, output := CollectPackages(exts, packages, version);
    if err.Some? {
      return TextResponse("Something went wrong! " + err.value);
    }
    ghost var t := Grouped(exts, packages, version).value;
    var msg: seq<string> := [];
    var k := 0;
    while k < |keys|
      invariant k <= |keys|
      invariant msg == VersionLines(t[..k])
    {
      var d := output[keys[k]];
      assert t[..k + 1][..k] == t[..k];
      msg := msg + ["## " + d.package + " `" + d.version + "`"];
      var c := 0;
      while c < |d.extensions|
        invariant c <= |d.extensions|
        invariant msg == VersionLines(t[..k]) + ["## " + d.package + " `" + d.version + "`"] + ExtensionLines(d.extensions[..c])
      {
        msg := msg + ["- " + d.extensions[c]];
        c := c + 1;
      }
      assert d.extensions[..c] == d.extensions;
      k := k + 1;
    }
    assert t[..k] == t;
    reply := EmbedResponse(Embed("Loaded Extensions", Some(Join(msg, "\n")), DefaultColour, [], None));
  }

  /** The extensions whose top-level module some distribution provides, in load order. */
  function KnownExtensions(exts: seq<string>, packages: map<string, seq<string>>): seq<string>
    decreases |exts|
  {
    if |exts| == 0 then []
    else
      var rest := KnownExtensions(exts[..|exts| - 1], packages);
      if FirstSegment(exts[|exts| - 1]) in packages then rest + [exts[|exts| - 1]] else rest
  }

  function AllExtensions(t: seq<PackageEntry>): seq<string>
    decreases |t|
  {
    if |t| == 0 then [] else AllExtensions(t[..|t| - 1]) + t[|t| - 1].extensions
  }

  function Packages(t: seq<PackageEntry>): (r: seq<string>)
    ensures |r| == |t|
  {
    seq(|t|, i requires 0 <= i < |t| => t[i].package)
  }

  lemma {:induction false} AllExtensionsAppendAt(t: seq<PackageEntry>, i: nat, d: PackageEntry, ext: string)
    requires i < |t| && d.extensions == t[i].extensions + [ext]
    ensures multiset(AllExtensions(t[i := d])) == multiset(AllExtensions(t)) + multiset{ext}
    decreases |t|
  {
    var u := t[i := d];
    var tp := t[..|t| - 1];
    UpdateInit(t, i, d);
    if i < |t| - 1 {
      AllExtensionsAppendAt(tp, i, d, ext);
    }
  }

  lemma UpdateInit<T>(t: seq<T>, i: nat, d: T)
    requires i < |t|
    ensures i < |t| - 1 ==> t[i := d][..|t| - 1] == t[..|t| - 1][i := d] && t[i := d][|t| - 1] == t[|t| - 1]
    ensures i == |t| - 1 ==> t[i := d][..|t| - 1] == t[..|t| - 1] && t[i := d][|t| - 1] == d
  {
  }

  /** When the command succeeds: each distribution has one entry, every extension sits under the
      first distribution of its top-level module, and the entries hold exactly the extensions
      with a known top-level module, each as often as it was loaded. */
  lemma {:induction false} GroupedSpec(exts: seq<string>, packages: map<string, seq<string>>,
    version: string -> Result<string>)
    requires Grouped(exts, packages, version).Success?
    ensures var t := Grouped(exts, packages, version).value;
      && Distinct(Packages(t))
      && (forall i, x :: 0 <= i < |t| && x in t[i].extensions ==>
            FirstSegment(x) in packages && |packages[FirstSegment(x)]| > 0 && packages[FirstSegment(x)][0] == t[i].package)
      && multiset(AllExtensions(t)) == multiset(KnownExtensions(exts, packages))
    decreases |exts|
  {
    if |exts| > 0 {
      var q := exts[..|exts| - 1];
      var ext := exts[|exts| - 1];
      GroupedSpec(q, packages, version);
      var t := Grouped(q, packages, version).value;
      var e := FirstSegment(ext);
      if e in packages {
        var p := packages[e][0];
        var v := version(p).value;
        match IndexOfPackage(t, p)
        case Some(i) => {
          var d := PackageEntry(p, v, t[i].extensions + [ext]);
          AllExtensionsAppendAt(t, i, d, ext);
          assert Packages(t[i := d]) == Packages(t);
        }
        case None => {
          var u := t + [PackageEntry(p, v, [ext])];
          assert u[..|u| - 1] == t;
          assert Packages(u) == Packages(t) + [p];
        }
      }
    }
  }
}
