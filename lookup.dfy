/** The `Lookup` cog (`cogs/lookup.py`): the character embed, the known-alts CSV, the corporation
    roll-up and the two slash commands that send them. */
module Lookup {
  import opened Wrappers
  import opened Text
  import opened Seqs
  import opened Discord
  import opened Roster
  import Settings

  const LinkedMarker := "**(Discord Limited There are More)**"
  const FoundMarker := "**( Discord Limited There are More )**"

  /** The channels the slash commands are limited to: `Setting.Field.LOOKUP_CHANNELS` names the
      `lookup_channels` field, and the result is the ids of its rows. */
  function LookupChannels(s: Settings.Setting): (r: Result<seq<nat>>)
    ensures r == Success(s.lookupChannels)
  {
    match Settings.FieldByMember("LOOKUP_CHANNELS")
    case Failure(e) => Failure(e)
    case Success(k) => Settings.ChannelIds(s, k)
  }

  // ---- get_lookup_embed ----

  function AltLine(links: Links, a: AltRow): string
  {
    "[" + a.name + "](" + links.character(a.characterId) + ") [[" + a.ticker + "](" + links.corporation(a.corporationId) + ")]"
  }

  function AltLines(links: Links, alts: seq<AltRow>): (r: seq<string>)
    ensures |r| == |alts|
  {
    seq(|alts|, i requires 0 <= i < |alts| => AltLine(links, alts[i]))
  }

  /** A found character; the corporation part is in italics. */
  function FoundLine(links: Links, f: FoundChar): string
  {
    "[" + f.name + "](" + links.character(f.characterId) + ") *[[" + f.ticker + "](" + links.corporation(f.corporationId) + ")]*"
  }

  function FoundLines(links: Links, found: seq<FoundChar>): (r: seq<string>)
    ensures |r| == |found|
  {
    seq(|found|, i requires 0 <= i < |found| => FoundLine(links, found[i]))
  }

  function OldUsersValue(users: seq<string>): string
  {
    if |users| == 0 then "No user links found" else Join(users, ", ")
  }

  const NoMainError := "AttributeError: 'NoneType' object has no attribute 'corporation_ticker'"

  /** The embed for a character name: `found` is the character with that name, if any. A linked
      character whose account has no main makes the description's `main.corporation_ticker` raise. */
  function LookupEmbed(input: string, found: Option<CharacterRecord>, statsActive: bool, links: Links): Result<Embed>
  {
    match found
    case None =>
      Success(Embed("Character Lookup: " + input,
        Some("Character **" + input + "** does not exist in our Auth system"), Red, [], None))
    case Some(c) =>
      match c.account
      case None =>
        Success(Embed("Character Lookup",
          Some("**" + c.name + "** is unlinked. Searching for any characters linked to known users"), Blue,
          [EmbedField("Old Users", OldUsersValue(c.oldUsers), false)]
            + GroupFields("Found Characters", FoundMarker, ", ", Chunks(FoundLines(links, c.found), GroupSize)),
          None))
      case Some(acct) =>
        if acct.main.None? then Failure(NoMainError)
        else
          Success(Embed("Character Lookup: " + input,
            Some("**" + c.name + "** is linked to **" + acct.main.value.name + " [" + acct.main.value.ticker
              + "]** (State: " + acct.state + ")"), Blue,
            GroupFields("Linked Characters", LinkedMarker, "\n", Chunks(AltLines(links, acct.alts), GroupSize))
              + AccountTail(acct, "\n", statsActive),
            None))
  }

  /** `get_lookup_embed`, in the order the cog runs it. */
  method BuildLookupEmbed(input: string, found: Option<CharacterRecord>, statsActive: bool, links: Links)
    returns (r: Result<Embed>)
    ensures r == LookupEmbed(input, found, statsActive, links)
  {
    var embed := NewEmbed("Character Lookup: " + input);
    if found.None? {
      embed := embed.(colour := Red, description := Some("Character **" + input + "** does not exist in our Auth system"));
      return Success(embed);
    }
    var c := found.value;
    if c.account.None? {
      embed := NewEmbed("Character Lookup").(colour := Blue,
        description := Some("**" + c.name + "** is unlinked. Searching for any characters linked to known users"));
      var userNames := if |c.oldUsers| == 0 then "No user links found" else Join(c.oldUsers, ", ");
      var fields := embed.fields + [EmbedField("Old Users", userNames, false)];
      assert fields == [EmbedField("Old Users", userNames, false)];
      assert userNames == OldUsersValue(c.oldUsers);
      fields := AddGroupFields(fields, "Found Characters", FoundMarker, ", ", FoundLines(links, c.found));
      assert embed.(fields := fields) == LookupEmbed(input, found, statsActive, links).value;
      return Success(embed.(fields := fields));
    }
    var acct := c.account.value;
    embed := embed.(colour := Blue);
    if acct.main.None? {
      return Failure(NoMainError);
    }
    var main := acct.main.value;
    embed := embed.(description := Some("**" + c.name + "** is linked to **" + main.name + " [" + main.ticker
      + "]** (State: " + acct.state + ")"));
    var fields := AddGroupFields(embed.fields, "Linked Characters", LinkedMarker, "\n", AltLines(links, acct.alts));
    fields := AddAccountTail(fields, acct, "\n", statsActive);
    assert embed.(fields := fields) == LookupEmbed(input, found, statsActive, links).value;
    r := Success(embed.(fields := fields));
  }

  /** The three outcomes: an unknown name gives the red embed, an unlinked character the blue
      "Character Lookup" embed, a linked one the blue embed titled with the input -- unless its
      account has no main, and only then the lookup fails. */
  lemma LookupOutcomes(input: string, found: Option<CharacterRecord>, statsActive: bool, links: Links)
    ensures var r := LookupEmbed(input, found, statsActive, links);
      && (r.Failure? <==> found.Some? && found.value.account.Some? && found.value.account.value.main.None?)
      && (r.Success? ==> (r.value.colour == Red <==> found.None?))
      && (r.Success? ==> (r.value.title == "Character Lookup" <==> found.Some? && found.value.account.None?))
      && (found.None? ==> r.Success? && r.value.fields == [])
  {
    var r := LookupEmbed(input, found, statsActive, links);
    if r.Success? && (found.None? || found.value.account.Some?) {
      assert r.value.title == "Character Lookup: " + input;
      assert r.value.title[|"Character Lookup"|] == ':';
    }
  }

  /** A linked character's embed: the capped alt fields, then `Groups` (newline separated) when the
      account has groups, the two kill totals when statistics are active, and `Discord Link` last. */
  lemma LinkedEmbedLayout(input: string, c: CharacterRecord, statsActive: bool, links: Links)
    requires c.account.Some? && c.account.value.main.Some?
    ensures var acct := c.account.value;
      var r := LookupEmbed(input, Some(c), statsActive, links);
      var n := Min(CeilDiv(|acct.alts|, GroupSize), MaxGroupFields);
      && r.Success?
      && |r.value.fields| == n + (if |acct.groups| > 0 then 1 else 0) + (if statsActive then 2 else 0) + 1
      && r.value.fields[..n] == GroupFields("Linked Characters", LinkedMarker, "\n", Chunks(AltLines(links, acct.alts), GroupSize))
      && r.value.fields[|r.value.fields| - 1] == EmbedField("Discord Link", DiscordString(acct.discordUid), false)
      && (statsActive ==> r.value.fields[|r.value.fields| - 3].value == IntToString(KillTotals(StatsOf(acct.alts)).zk12))
  {
    var acct := c.account.value;
    ChunksCount(AltLines(links, acct.alts), GroupSize);
    AccountTailLayout(acct, "\n", statsActive);
  }

  /** An unlinked character's embed: `Old Users` first (the placeholder exactly when there are no
      old users), then the capped found-character fields, comma separated. */
  lemma UnlinkedEmbedLayout(input: string, c: CharacterRecord, statsActive: bool, links: Links)
    requires c.account.None?
    ensures var r := LookupEmbed(input, Some(c), statsActive, links);
      && r.Success?
      && |r.value.fields| == 1 + Min(CeilDiv(|c.found|, GroupSize), MaxGroupFields)
      && r.value.fields[0].name == "Old Users"
      && (|c.oldUsers| == 0 ==> r.value.fields[0].value == "No user links found")
      && (|c.oldUsers| > 0 ==> r.value.fields[0].value == Join(c.oldUsers, ", "))
      && r.value.fields[1..] == GroupFields("Found Characters", FoundMarker, ", ", Chunks(FoundLines(links, c.found), GroupSize))
  {
    ChunksCount(FoundLines(links, c.found), GroupSize);
  }

  // ---- get_csv ----

  const CsvHeader: seq<string> := ["Character ID", "Character Name", "Corporation ID", "Corporation Name",
    "Alliance ID", "Alliance Name"]

  /** A row as `csv.writer` renders its cells: numbers in decimal, `None` as the empty cell. */
  function CsvRow(a: AltRow): seq<string>
  {
    [NatToString(a.characterId), a.name, NatToString(a.corporationId), a.corporationName,
     if a.allianceId.Some? then NatToString(a.allianceId.value) else "",
     if a.allianceName.Some? then a.allianceName.value else ""]
  }

  datatype CsvFile = CsvFile(fileName: string, rows: seq<seq<string>>)

  const NotFoundError := "EveCharacter.DoesNotExist"
  const UnlinkedError := "RelatedObjectDoesNotExist"

  function CsvRows(alts: seq<AltRow>): seq<seq<string>>
  {
    [CsvHeader] + seq(|alts|, i requires 0 <= i < |alts| => CsvRow(alts[i]))
  }

  /** The CSV of an account's characters; an unknown or unlinked name raises. */
  function GetCsv(input: string, found: Option<CharacterRecord>): Result<CsvFile>
  {
    if found.None? then Failure(NotFoundError)
    else if found.value.account.None? then Failure(UnlinkedError)
    else Success(CsvFile(input + "_known_alts.csv", CsvRows(found.value.account.value.alts)))
  }

  /** The `writerow` loop. */
  method WriteCsv(alts: seq<AltRow>) returns (rows: seq<seq<string>>)
    ensures rows == CsvRows(alts)
  {
    rows := [CsvHeader];
    var i := 0;
    while i < |alts|
      invariant i <= |alts|
      invariant rows == [CsvHeader] + seq(i, k requires 0 <= k < i => CsvRow(alts[k]))
    {
      rows := rows + [CsvRow(alts[i])];
      i := i + 1;
    }
  }

  /** Under the header every character has one row of six cells, in account order, whose id cells
      read back as the character's and corporation's ids; the alliance cells are empty exactly for
      characters outside any alliance. */
  lemma CsvRowsSpec(alts: seq<AltRow>, i: nat)
    requires i < |alts|
    ensures var rows := CsvRows(alts);
      && |rows| == |alts| + 1
      && rows[0] == CsvHeader
      && |rows[i + 1]| == 6
      && ParseNat(rows[i + 1][0]) == alts[i].characterId
      && rows[i + 1][1] == alts[i].name
      && ParseNat(rows[i + 1][2]) == alts[i].corporationId
      && (rows[i + 1][4] == "" <==> alts[i].allianceId.None?)
  {
    ParseNatToString(alts[i].characterId);
    ParseNatToString(alts[i].corporationId);
  }

  datatype LookupReply = LookupReply(embed: Embed, file: Option<CsvFile>)

  /** `/lookup character`: with `gib_csv` the CSV is built first, so its exception ends the command. */
  function SlashLookup(input: string, found: Option<CharacterRecord>, gibCsv: bool, statsActive: bool, links: Links)
    : (r: Result<LookupReply>)
    ensures r.Success? ==> (r.value.file.Some? <==> gibCsv)
    ensures r.Success? ==> Success(r.value.embed) == LookupEmbed(input, found, statsActive, links)
    ensures r.Success? && gibCsv ==> Success(r.value.file.value) == GetCsv(input, found)
    ensures r.Failure? <==> (gibCsv && GetCsv(input, found).Failure?) || LookupEmbed(input, found, statsActive, links).Failure?
  {
    var csv := GetCsv(input, found);
    if gibCsv && csv.Failure? then Failure(csv.error)
    else
      match LookupEmbed(input, found, statsActive, links)
      case Failure(e) => Failure(e)
      case Success(e) => Success(LookupReply(e, if gibCsv then Some(csv.value) else None))
  }

  /** Asking for the CSV of a name that is unknown or unlinked sends nothing at all, while the same
      lookup without the CSV answers with an embed. */
  lemma CsvOnlyForLinked(input: string, found: Option<CharacterRecord>, statsActive: bool, links: Links)
    ensures SlashLookup(input, found, true, statsActive, links).Success? ==>
      found.Some? && found.value.account.Some? && found.value.account.value.main.Some?
    ensures (found.None? || found.value.account.None?) ==>
      SlashLookup(input, found, true, statsActive, links).Failure? &&
      SlashLookup(input, found, false, statsActive, links).Success?
  {
  }

  // ---- build_altcorp_embeds ----

  /** What the corporation provider returns for an id. */
  datatype CorpInfo = CorpInfo(ticker: string, members: int)

  function HeaderMessage(links: Links, corpId: nat, info: CorpInfo, knowns: nat): string
  {
    "**[[" + info.ticker + "](" + links.corporation(corpId) + ")]** has " + IntToString(info.members) + " members:\n\n"
      + "```diff\n"
      + "+Known Members     : " + NatToString(knowns) + "\n"
      + "-Unknowns          : " + IntToString(info.members - knowns) + "```"
  }

  function BodyEmbed(input: string, lines: seq<string>): Embed
  {
    Embed(input, Some(Join(lines, "\n")), Blue, [], None)
  }

  function BodyEmbeds(input: string, groups: seq<seq<string>>): (r: seq<Embed>)
    ensures |r| == |groups|
    ensures forall i :: 0 <= i < |groups| ==> r[i] == BodyEmbed(input, groups[i])
  {
    seq(|groups|, i requires 0 <= i < |groups| => BodyEmbed(input, groups[i]))
  }

  /** The header embed and one blue embed per ten roll-up lines, or `None` (the function falls
      off its end) when no character belongs to the corporation. */
  function AltCorpEmbeds(input: string, chars: seq<CorpCharacter>, memberAlliances: seq<nat>,
    provider: nat -> CorpInfo, links: Links): Option<seq<Embed>>
  {
    if |chars| == 0 then None
    else
      var corpId := chars[|chars| - 1].corporationId;
      var alts := AltsInCorp(chars, memberAlliances);
      var tally := Tally(alts);
      Some([Embed(input, Some(HeaderMessage(links, corpId, provider(corpId), |KnownIds(alts)|)), DefaultColour, [], None)]
        + BodyEmbeds(input, Chunks(MainLines(links, tally, "character"), 10)))
  }

  /** `build_altcorp_embeds`, in the order the cog runs it. */
  method BuildAltCorpEmbeds(input: string, chars: seq<CorpCharacter>, memberAlliances: seq<nat>,
    provider: nat -> CorpInfo, links: Links) returns (r: Option<seq<Embed>>)
    ensures r == AltCorpEmbeds(input, chars, memberAlliances, provider, links)
  {
    if |chars| == 0 {
      return None;
    }
    var alts, corpId := SelectAlts(chars, memberAlliances);
    var tally, knowns := CountMains(alts);
    var output := MainLines(links, tally, "character");
    var corpInfo := provider(corpId);
    var header := Embed(input, Some(HeaderMessage(links, corpId, corpInfo, knowns)), DefaultColour, [], None);
    var embeds := AppendBodies(input, header, Chunks(output, 10));
    r := Some(embeds);
  }

  /** The loop of `build_altcorp_embeds` that adds one blue embed per group of lines. */
  method AppendBodies(input: string, header: Embed, groups: seq<seq<string>>) returns (embeds: seq<Embed>)
    ensures embeds == [header] + BodyEmbeds(input, groups)
  {
    embeds := [header];
    var i := 0;
    while i < |groups|
      invariant i <= |groups|
      invariant |embeds| == i + 1 && embeds[0] == header
      invariant forall k :: 0 <= k < i ==> embeds[k + 1] == BodyEmbed(input, groups[k])
    {
      embeds := embeds + [BodyEmbed(input, groups[i])];
      i := i + 1;
    }
    assert embeds == [header] + BodyEmbeds(input, groups);
  }

  /** For a corporation with characters: one header plus one embed per ten mains, every main line
      shown once and in order across the bodies, and the header's known count is the total of the
      per-main counts. */
  lemma AltCorpLayout(input: string, chars: seq<CorpCharacter>, memberAlliances: seq<nat>,
    provider: nat -> CorpInfo, links: Links)
    requires |chars| > 0
    ensures var alts := AltsInCorp(chars, memberAlliances);
      var lines := MainLines(links, Tally(alts), "character");
      var r := AltCorpEmbeds(input, chars, memberAlliances, provider, links);
      && r.Some?
      && |r.value| == 1 + CeilDiv(|Tally(alts)|, 10)
      && (forall i :: 0 <= i < |r.value| ==> r.value[i].title == input)
      && Flatten(Chunks(lines, 10)) == lines
      && (forall k :: 0 <= k < |r.value| - 1 ==> r.value[k + 1] == BodyEmbed(input, Chunks(lines, 10)[k]))
      && SumCounts(Tally(alts)) == |KnownIds(alts)|
  {
    var alts := AltsInCorp(chars, memberAlliances);
    var lines := MainLines(links, Tally(alts), "character");
    ChunksCount(lines, 10);
    FlattenChunks(lines, 10);
    KnownTotal(alts);
    var corpId := chars[|chars| - 1].corporationId;
    HeaderAndBodies(input, Embed(input, Some(HeaderMessage(links, corpId, provider(corpId), |KnownIds(alts)|)), DefaultColour, [], None),
      Chunks(lines, 10));
  }

  lemma HeaderAndBodies(input: string, header: Embed, groups: seq<seq<string>>)
    requires header.title == input
    ensures var r := [header] + BodyEmbeds(input, groups);
      && |r| == 1 + |groups|
      && (forall i :: 0 <= i < |r| ==> r[i].title == input)
      && (forall k :: 0 <= k < |groups| ==> r[k + 1] == BodyEmbed(input, groups[k]))
  {
  }

  lemma KnownTotal(alts: seq<CorpCharacter>)
    ensures SumCounts(Tally(alts)) == |KnownIds(alts)|
  {
    TallySpec(alts);
  }

  // ---- slash_altcorp ----

  datatype CorpReply = Embeds(first: Embed, rest: seq<Embed>) | Message(text: string)

  const NoLenError := "TypeError: object of type 'NoneType' has no len()"

  /** As written: `len(embeds)` on the `None` of an empty corporation raises. */
  function SlashAltcorpAsWritten(embeds: Option<seq<Embed>>): Result<CorpReply>
  {
    match embeds
    case None => Failure(NoLenError)
    case Some(es) => if |es| > 0 then Success(Embeds(es[0], es[1..])) else Success(Message("No Members Found!"))
  }

  /** As written an empty corporation ends in the `TypeError`, and the "No Members Found!" reply
      can never be sent. */
  lemma SlashAltcorpAsWrittenNeverSaysNoMembers(input: string, chars: seq<CorpCharacter>,
    memberAlliances: seq<nat>, provider: nat -> CorpInfo, links: Links)
    ensures var r := SlashAltcorpAsWritten(AltCorpEmbeds(input, chars, memberAlliances, provider, links));
      && (|chars| == 0 ==> r.Failure?)
      && !(r.Success? && r.value.Message?)
  {
  }

  /** Intended: no embeds, or none at all, means "No Members Found!". */
  function SlashAltcorp(embeds: Option<seq<Embed>>): CorpReply
  {
    if embeds.Some? && |embeds.value| > 0 then Embeds(embeds.value[0], embeds.value[1..])
    else Message("No Members Found!")
  }

  /** `/lookup corporation` replies "No Members Found!" exactly for a corporation without
      characters, and otherwise responds with the header and sends the body embeds after it. */
  lemma SlashAltcorpReplies(input: string, chars: seq<CorpCharacter>, memberAlliances: seq<nat>,
    provider: nat -> CorpInfo, links: Links)
    ensures var embeds := AltCorpEmbeds(input, chars, memberAlliances, provider, links);
      var r := SlashAltcorp(embeds);
      && (r.Message? <==> |chars| == 0)
      && (r.Message? ==> r.text == "No Members Found!")
      && (r.Embeds? ==> [r.first] + r.rest == embeds.value && r.first.colour == DefaultColour)
  {
  }
}
