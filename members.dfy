/** The `Members` cog (`cogs/members.py`): the prefix commands `!lookup` and `!altcorp`, which read
    their argument off the raw message and share the roster rules with `Lookup`. */
module Members {
  import opened Wrappers
  import opened Text
  import opened Seqs
  import opened Discord
  import opened Roster

  const MoreMarker := "**(Discord Limited There are More)**"

  /** The fixed evewho links the cog writes out. */
  function EveWhoCharacter(id: nat): string { "https://evewho.com/character/" + NatToString(id) }
  function EveWhoCorporation(id: nat): string { "https://evewho.com/corporation/" + NatToString(id) }

  /** `ctx.message.content[8:]`: the text after `!lookup `. */
  function LookupArgument(content: string): (r: string)
    ensures "!lookup " <= content ==> r == content[8..]
    ensures |content| <= 8 ==> r == ""
  {
    DropPrefix(content, 8)
  }

  /** `ctx.message.content[9:]`: the text after `!altcorp `. */
  function AltcorpArgument(content: string): (r: string)
    ensures "!altcorp " <= content ==> r == content[9..]
    ensures |content| <= 9 ==> r == ""
  {
    DropPrefix(content, 9)
  }

  /** Alt and found character lines: `[name](evewho) [[ticker](evewho)]`. */
  function CharacterLine(name: string, characterId: nat, ticker: string, corporationId: nat): string
  {
    "[" + name + "](" + EveWhoCharacter(characterId) + ") [[" + ticker + "](" + EveWhoCorporation(corporationId) + ")]"
  }

  function AltLines(alts: seq<AltRow>): (r: seq<string>)
    ensures |r| == |alts|
  {
    seq(|alts|, i requires 0 <= i < |alts| => CharacterLine(alts[i].name, alts[i].characterId, alts[i].ticker, alts[i].corporationId))
  }

  function FoundLines(found: seq<FoundChar>): (r: seq<string>)
    ensures |r| == |found|
  {
    seq(|found|, i requires 0 <= i < |found| =>
      CharacterLine(found[i].name, found[i].characterId, found[i].ticker, found[i].corporationId))
  }

  /** `**<char>** is linked to **<main> [<ticker>]** (State: <state>)`, or the "not associated" text. */
  function LinkedDescription(c: CharacterRecord, acct: Account): string
  {
    "**" + c.name + "** is " + if acct.main.None? then Unassociated else LinkedText(acct)
  }

  const Unassociated := "not associated with any Auth account …"

  function LinkedText(acct: Account): string
    requires acct.main.Some?
  {
    "linked to **" + acct.main.value.name + " [" + acct.main.value.ticker + "]** (State: " + acct.state + ")"
  }

  /** The embed `!lookup` sends for the name `input`; `found` is the character with that name. */
  function LookupEmbed(input: string, found: Option<CharacterRecord>, statsActive: bool): Embed
  {
    match found
    case None =>
      Embed("Character Lookup " + input, Some("Character **" + input + "** does not exist in our Auth system"), Red, [], None)
    case Some(c) =>
      match c.account
      case None =>
        Embed("Character Lookup",
          Some("**" + c.name + "** is unlinked, searching for any characters linked to known users"), Blue,
          [EmbedField("Old Users", Join(c.oldUsers, "\n"), false)]
            + GroupFields("Found Characters", MoreMarker, "\n", Chunks(FoundLines(c.found), GroupSize)),
          None)
      case Some(acct) =>
        Embed("Character Lookup " + input, Some(LinkedDescription(c, acct)), Blue,
          GroupFields("Linked Characters", MoreMarker, "\n", Chunks(AltLines(acct.alts), GroupSize))
            + AccountTail(acct, ", ", statsActive),
          None)
  }

  /** `!lookup`, in the order the cog runs it; the result is the embed it sends. */
  method Lookup(content: string, found: Option<CharacterRecord>, statsActive: bool) returns (embed: Embed)
    ensures embed == LookupEmbed(LookupArgument(content), found, statsActive)
  {
    var inputName := LookupArgument(content);
    embed := NewEmbed("Character Lookup " + inputName);
    if found.None? {
      embed := embed.(colour := Red, description := Some("Character **" + inputName + "** does not exist in our Auth system"));
      return;
    }
    var c := found.value;
    if c.account.None? {
      embed := NewEmbed("Character Lookup").(colour := Blue,
        description := Some("**" + c.name + "** is unlinked, searching for any characters linked to known users"));
      var fields := [EmbedField("Old Users", Join(c.oldUsers, "\n"), false)];
      fields := AddGroupFields(fields, "Found Characters", MoreMarker, "\n", FoundLines(c.found));
      embed := embed.(fields := fields);
      return;
    }
    var acct := c.account.value;
    embed := embed.(colour := Blue);
    embed := embed.(description := Some(LinkedDescription(c, acct)));
    var fields := AddGroupFields(embed.fields, "Linked Characters", MoreMarker, "\n", AltLines(acct.alts));
    fields := AddAccountTail(fields, acct, ", ", statsActive);
    embed := embed.(fields := fields);
  }

  /** The "not associated" text is the description exactly when the account has no main. */
  lemma NoMainDescription(c: CharacterRecord, acct: Account)
    ensures acct.main.None? <==> LinkedDescription(c, acct) == "**" + c.name + "** is " + Unassociated
  {
    if acct.main.Some? {
      var p := "**" + c.name + "** is ";
      var x := LinkedText(acct);
      assert x[0] == 'l';
      assert (p + x)[|p|] == x[0];
      assert (p + Unassociated)[|p|] == Unassociated[0] == 'n';
    }
  }

  /** Unlike `/lookup character`, `!lookup` always answers a linked character: one without a main
      gets the "not associated" description and still lists its alts and the other fields. */
  lemma LookupAlwaysAnswers(input: string, c: CharacterRecord, statsActive: bool)
    requires c.account.Some?
    ensures var acct := c.account.value;
      var e := LookupEmbed(input, Some(c), statsActive);
      var n := Min(CeilDiv(|acct.alts|, GroupSize), MaxGroupFields);
      && e.colour == Blue
      && (acct.main.None? <==> e.description == Some("**" + c.name + "** is " + Unassociated))
      && |e.fields| == n + (if |acct.groups| > 0 then 1 else 0) + (if statsActive then 2 else 0) + 1
      && e.fields[..n] == GroupFields("Linked Characters", MoreMarker, "\n", Chunks(AltLines(acct.alts), GroupSize))
  {
    var acct := c.account.value;
    ChunksCount(AltLines(acct.alts), GroupSize);
    AccountTailLayout(acct, ", ", statsActive);
    NoMainDescription(c, acct);
  }

  /** An unlinked character's `Old Users` field lists the user names one per line, and is empty
      when there are none; the capped found-character fields follow, one name per line. */
  lemma UnlinkedOldUsers(input: string, c: CharacterRecord, statsActive: bool)
    requires c.account.None?
    ensures var e := LookupEmbed(input, Some(c), statsActive);
      && |e.fields| == 1 + Min(CeilDiv(|c.found|, GroupSize), MaxGroupFields)
      && e.fields[0] == EmbedField("Old Users", Join(c.oldUsers, "\n"), false)
      && (|c.oldUsers| == 0 ==> e.fields[0].value == "")
      && e.fields[1..] == GroupFields("Found Characters", MoreMarker, "\n", Chunks(FoundLines(c.found), GroupSize))
  {
    ChunksCount(FoundLines(c.found), GroupSize);
  }

  function EveWho(): Links
  {
    Links(EveWhoCharacter, EveWhoCorporation)
  }

  /** The embeds `!altcorp` sends: one blue embed per ten mains, titled with the argument; none
      for a corporation without characters. */
  function AltcorpEmbeds(input: string, chars: seq<CorpCharacter>, memberAlliances: seq<nat>): seq<Embed>
  {
    RollUpEmbeds(input, AltsInCorp(chars, memberAlliances))
  }

  /** The embeds for the characters the filter kept: one per ten mains of their tally. */
  function RollUpEmbeds(input: string, alts: seq<CorpCharacter>): seq<Embed>
  {
    var lines := MainLines(EveWho(), Tally(alts), "alt");
    var groups := Chunks(lines, 10);
    seq(|groups|, i requires 0 <= i < |groups| => Embed(input, Some(Join(groups[i], "\n")), Blue, [], None))
  }

  /** As written (`own_ids = [DISCORD_BOT_MEMBER_ALLIANCES]`, as in `lookup.py`), `!altcorp` rolls up
      every character of the corporation, member alliances included: a corporation whose only
      character belongs to member alliance 99 and has a known main gets one embed, where the
      corrected filter sends none. */
  lemma AltcorpAsWrittenCountsMembers(input: string, chars: seq<CorpCharacter>, memberAlliances: seq<nat>, m: MainChar)
    ensures RollUpEmbeds(input, AltsInCorpAsWritten(chars, memberAlliances)) == RollUpEmbeds(input, chars)
    ensures |RollUpEmbeds(input, AltsInCorpAsWritten([CorpCharacter(Some(99), 1, Some(m))], [99]))| == 1
    ensures |AltcorpEmbeds(input, [CorpCharacter(Some(99), 1, Some(m))], [99])| == 0
  {
    AltsInCorpAsWrittenKeepsAll(chars, memberAlliances);
    var one := [CorpCharacter(Some(99), 1, Some(m))];
    AltsInCorpAsWrittenKeepsAll(one, [99]);
    LoneMemberCharacter(input, one, m);
  }

  lemma LoneMemberCharacter(input: string, one: seq<CorpCharacter>, m: MainChar)
    requires one == [CorpCharacter(Some(99), 1, Some(m))]
    ensures |RollUpEmbeds(input, one)| == 1
    ensures AltsInCorp(one, [99]) == []
  {
    assert one[..0] == [];
    assert Tally(one) == [MainCount(m, 1)] by {
      assert Tally(one[..0]) == [];
    }
    var lines := MainLines(EveWho(), Tally(one), "alt");
    ChunksCount(lines, 10);
  }

  /** `!altcorp`, in the order the cog runs it; the result is the embeds it sends. */
  method Altcorp(content: string, chars: seq<CorpCharacter>, memberAlliances: seq<nat>) returns (sent: seq<Embed>)
    ensures sent == AltcorpEmbeds(AltcorpArgument(content), chars, memberAlliances)
  {
    var inputName := DropPrefix(content, 9);
    var alts, _ := SelectAlts(chars, memberAlliances);
    var mains, _ := CountMains(alts);
    var output := MainLines(EveWho(), mains, "alt");
    var groups := Chunks(output, 10);
    sent := [];
    var i := 0;
    while i < |groups|
      invariant i <= |groups|
      invariant sent == seq(i, k requires 0 <= k < i => Embed(inputName, Some(Join(groups[k], "\n")), Blue, [], None))
    {
      sent := sent + [Embed(inputName, Some(Join(groups[i], "\n")), Blue, [], None)];
      i := i + 1;
    }
  }

  /** One embed per ten mains, nothing at all for a corporation none of whose selected characters
      has a known main, and every main line sent once, in order: embed `k` holds page `k` of the
      lines, one to ten of them joined by newlines. */
  lemma AltcorpLayout(input: string, chars: seq<CorpCharacter>, memberAlliances: seq<nat>)
    ensures var tally := Tally(AltsInCorp(chars, memberAlliances));
      var lines := MainLines(EveWho(), tally, "alt");
      var sent := AltcorpEmbeds(input, chars, memberAlliances);
      && |sent| == CeilDiv(|tally|, 10)
      && (|sent| == 0 <==> |KnownIds(AltsInCorp(chars, memberAlliances))| == 0)
      && Flatten(Chunks(lines, 10)) == lines
      && (forall k :: 0 <= k < |sent| ==>
            && sent[k] == Embed(input, Some(Join(Chunks(lines, 10)[k], "\n")), Blue, [], None)
            && 0 < |Chunks(lines, 10)[k]| <= 10)
  {
    var alts := AltsInCorp(chars, memberAlliances);
    var tally := Tally(alts);
    var lines := MainLines(EveWho(), tally, "alt");
    ChunksCount(lines, 10);
    FlattenChunks(lines, 10);
    forall k | 0 <= k < |Chunks(lines, 10)| ensures 0 < |Chunks(lines, 10)[k]| <= 10 {
      ChunkSizes(lines, 10, k);
    }
    TallySpec(alts);
    DedupSpec(KnownIds(alts));
    if |KnownIds(alts)| > 0 {
      assert KnownIds(alts)[0] in Dedup(KnownIds(alts));
    }
  }
}
