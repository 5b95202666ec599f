/** The `Locator` cog (`cogs/locate.py`): each alt of a character is probed over ESI, sorted into
    online, offline and no-token buckets, and each bucket is sent as embeds of ten alts. */
module Locate {
  import opened Wrappers
  import opened Text
  import opened Seqs
  import opened Discord
  import opened Roster
  import Settings

  /** `Setting.Field.LOCATE_CHANNELS` is not a member of the enum, so this raises -- and since the
      decorator evaluates it while the class body runs, the module cannot be imported. */
  function LocateChannels(s: Settings.Setting): (r: Result<seq<nat>>)
    ensures r == Failure("AttributeError: " + "LOCATE_CHANNELS")
  {
    NoLocateChannelsMember();
    match Settings.FieldByMember("LOCATE_CHANNELS")
    case Failure(e) => Failure(e)
    case Success(k) => Settings.ChannelIds(s, k)
  }

  /** No member of `Setting.Field` is called `LOCATE_CHANNELS`; the only one of that length is
      `LOOKUP_CHANNELS`. */
  lemma NoLocateChannelsMember()
    ensures Settings.FieldByMember("LOCATE_CHANNELS") == Failure("AttributeError: " + "LOCATE_CHANNELS")
  {
    assert "LOCATE_CHANNELS"[2] != "LOOKUP_CHANNELS"[2];
  }

  /** What the three ESI calls and the two database lookups give for an alt with a token. */
  datatype Location = Location(online: bool, systemName: string, ship: string, lastOnline: string)

  /** One owned character: `hasToken` is whether `Token.get_token` found a token with the location
      scopes; `fetched` is `None` when any call of the fetch raised. */
  datatype AltProbe = AltProbe(characterId: nat, name: string, corporationId: nat, corporationName: string,
    hasToken: bool, fetched: Option<Location>)

  /** The `_alt` dict; `lookup` holds the location exactly when the `lookup` flag is set. */
  datatype AltEntry = AltEntry(characterId: nat, name: string, corporationId: nat, corporationName: string,
    lookup: Option<Location>)

  datatype Bucket = Online | Offline | NoTokens

  function BucketOf(p: AltProbe): Bucket
  {
    if !p.hasToken || p.fetched.None? then NoTokens
    else if p.fetched.value.online then Online
    else Offline
  }

  /** The dict after probing: the location is recorded only when the whole fetch succeeded. */
  function EntryOf(p: AltProbe): AltEntry
  {
    AltEntry(p.characterId, p.name, p.corporationId, p.corporationName,
      if p.hasToken && p.fetched.Some? then p.fetched else None)
  }

  /** The entries appended to bucket `b`, in alt order. */
  function BucketEntries(probes: seq<AltProbe>, b: Bucket): seq<AltEntry>
    decreases |probes|
  {
    if |probes| == 0 then []
    else
      var rest := BucketEntries(probes[..|probes| - 1], b);
      var p := probes[|probes| - 1];
      if BucketOf(p) == b then rest + [EntryOf(p)] else rest
  }

  /** The probing loop over the alts. */
  method SortAlts(probes: seq<AltProbe>) returns (online: seq<AltEntry>, offline: seq<AltEntry>, noToken: seq<AltEntry>)
    ensures online == BucketEntries(probes, Online)
    ensures offline == BucketEntries(probes, Offline)
    ensures noToken == BucketEntries(probes, NoTokens)
  {
    online, offline, noToken := [], [], [];
    var i := 0;
    while i < |probes|
      invariant i <= |probes|
      invariant online == BucketEntries(probes[..i], Online)
      invariant offline == BucketEntries(probes[..i], Offline)
      invariant noToken == BucketEntries(probes[..i], NoTokens)
    {
      assert probes[..i + 1][..i] == probes[..i];
      var p := probes[i];
      var alt := AltEntry(p.characterId, p.name, p.corporationId, p.corporationName, None);
      if p.hasToken {
        match p.fetched
        case Some(loc) =>
          alt := alt.(lookup := Some(loc));
          if loc.online {
            online := online + [alt];
          } else {
            offline := offline + [alt];
          }
        case None =>
          noToken := noToken + [alt];
      } else {
        noToken := noToken + [alt];
      }
      i := i + 1;
    }
    assert probes[..i] == probes;
  }

  function EntryIds(es: seq<AltEntry>): (r: seq<nat>)
    ensures |r| == |es|
    ensures forall i :: 0 <= i < |es| ==> r[i] == es[i].characterId
  {
    seq(|es|, i requires 0 <= i < |es| => es[i].characterId)
  }

  function ProbeIds(ps: seq<AltProbe>): (r: seq<nat>)
    ensures |r| == |ps|
    ensures forall i :: 0 <= i < |ps| ==> r[i] == ps[i].characterId
  {
    seq(|ps|, i requires 0 <= i < |ps| => ps[i].characterId)
  }

  /** Every alt lands in exactly one bucket: the three buckets together hold the alts' ids, each
      as often as among the alts. */
  lemma {:induction false} BucketsPartition(probes: seq<AltProbe>)
    ensures multiset(EntryIds(BucketEntries(probes, Online))) + multiset(EntryIds(BucketEntries(probes, Offline)))
      + multiset(EntryIds(BucketEntries(probes, NoTokens))) == multiset(ProbeIds(probes))
    decreases |probes|
  {
    if |probes| > 0 {
      var q := probes[..|probes| - 1];
      var p := probes[|probes| - 1];
      BucketsPartition(q);
      assert probes == q + [p];
      IdsAppend(q, p, BucketEntries(q, BucketOf(p)));
    }
  }

  lemma IdsAppend(ps: seq<AltProbe>, p: AltProbe, es: seq<AltEntry>)
    ensures ProbeIds(ps + [p]) == ProbeIds(ps) + [p.characterId]
    ensures EntryIds(es + [EntryOf(p)]) == EntryIds(es) + [p.characterId]
  {
  }

  /** The online and offline buckets hold only looked-up alts with that status, and the no-token
      bucket only alts without a location -- including alts whose fetch raised. */
  lemma {:induction false} BucketContents(probes: seq<AltProbe>)
    ensures forall e :: e in BucketEntries(probes, Online) ==> e.lookup.Some? && e.lookup.value.online
    ensures forall e :: e in BucketEntries(probes, Offline) ==> e.lookup.Some? && !e.lookup.value.online
    ensures forall e :: e in BucketEntries(probes, NoTokens) ==> e.lookup.None?
    decreases |probes|
  {
    if |probes| > 0 {
      BucketContents(probes[..|probes| - 1]);
    }
  }

  /** Link builders for evewho and dotlan, which are outside the model. */
  datatype LocateLinks = LocateLinks(eve: Links, solarSystem: string -> string)

  function CharacterLine(links: LocateLinks, a: AltEntry): string
  {
    "[" + a.name + "](" + links.eve.character(a.characterId) + ") [[" + a.corporationName + "]("
      + links.eve.corporation(a.corporationId) + ")]"
  }

  /** The text of one alt: the heading with location, ship and last logout when looked up, the
      bare line otherwise; both end in a newline. */
  function AltText(links: LocateLinks, a: AltEntry): string
  {
    match a.lookup
    case Some(loc) =>
      "### " + CharacterLine(links, a) + "\n"
        + "**Current Location:** [" + loc.systemName + "](" + links.solarSystem(loc.systemName) + ")\n"
        + "**Currently Flying:** " + loc.ship + "\n"
        + "**Last Online:** " + loc.lastOnline + "\n"
    case None => CharacterLine(links, a) + "\n"
  }

  function AltTexts(links: LocateLinks, es: seq<AltEntry>): (r: seq<string>)
    ensures |r| == |es|
  {
    seq(|es|, i requires 0 <= i < |es| => AltText(links, es[i]))
  }

  function GroupEmbed(header: string, colour: Colour, texts: seq<string>): Embed
  {
    Embed(header, Some(Join(texts, "\n")), colour, [], None)
  }

  /** `_process_alt_list`: one embed per ten alts. */
  function AltListEmbeds(links: LocateLinks, header: string, es: seq<AltEntry>, colour: Colour): (r: seq<Embed>)
    ensures |r| == |Chunks(es, 10)|
    ensures forall i :: 0 <= i < |r| ==> r[i] == GroupEmbed(header, colour, AltTexts(links, Chunks(es, 10)[i]))
  {
    var groups := Chunks(es, 10);
    seq(|groups|, i requires 0 <= i < |groups| => GroupEmbed(header, colour, AltTexts(links, groups[i])))
  }

  /** The inner loop of `_process_alt_list`: the text of each alt of one group. */
  method AltStrings(links: LocateLinks, altGrp: seq<AltEntry>) returns (altstr: seq<string>)
    ensures altstr == AltTexts(links, altGrp)
  {
    altstr := [];
    var j := 0;
    while j < |altGrp|
      invariant j <= |altGrp|
      invariant altstr == AltTexts(links, altGrp[..j])
    {
      var a := altGrp[j];
      var characterLine := "[" + a.name + "](" + links.eve.character(a.characterId) + ") [["
        + a.corporationName + "](" + links.eve.corporation(a.corporationId) + ")]";
      if a.lookup.Some? {
        var loc := a.lookup.value;
        altstr := altstr + ["### " + characterLine + "\n"
          + "**Current Location:** [" + loc.systemName + "](" + links.solarSystem(loc.systemName) + ")\n"
          + "**Currently Flying:** " + loc.ship + "\n"
          + "**Last Online:** " + loc.lastOnline + "\n"];
      } else {
        altstr := altstr + [characterLine + "\n"];
      }
      j := j + 1;
    }
    assert altGrp[..j] == altGrp;
  }

  /** `_process_alt_list` with its outer loop over the groups of ten. */
  method ProcessAltList(links: LocateLinks, header: string, characters: seq<AltEntry>, colour: Colour)
    returns (embeds: seq<Embed>)
    ensures embeds == AltListEmbeds(links, header, characters, colour)
  {
    var groups := Chunks(characters, 10);
    embeds := [];
    var g := 0;
    while g < |groups|
      invariant g <= |groups|
      invariant |embeds| == g
      invariant forall i :: 0 <= i < g ==> embeds[i] == GroupEmbed(header, colour, AltTexts(links, groups[i]))
    {
      var altstr := AltStrings(links, groups[g]);
      embeds := embeds + [Embed(header, Some(Join(altstr, "\n")), colour, [], None)];
      g := g + 1;
    }
  }

  /** A bucket with its embed title and colour. */
  datatype Category = Category(header: string, alts: seq<AltEntry>, colour: Colour)

  function Categories(probes: seq<AltProbe>): seq<Category>
  {
    [Category("Online Characters", BucketEntries(probes, Online), Green),
     Category("Offline Characters", BucketEntries(probes, Offline), Orange),
     Category("No Tokens", BucketEntries(probes, NoTokens), Red)]
  }

  /** The embeds of the categories in order, empty categories skipped. */
  function CategoryEmbeds(links: LocateLinks, cats: seq<Category>): seq<Embed>
    decreases |cats|
  {
    if |cats| == 0 then []
    else
      CategoryEmbeds(links, cats[..|cats| - 1]) + CategoryPart(links, cats[|cats| - 1])
  }

  /** The embeds of one category; an empty one is skipped. */
  function CategoryPart(links: LocateLinks, c: Category): seq<Embed>
  {
    if |c.alts| > 0 then AltListEmbeds(links, c.header, c.alts, c.colour) else []
  }

  lemma CategoryPartSpec(links: LocateLinks, c: Category)
    ensures |CategoryPart(links, c)| == CeilDiv(|c.alts|, 10)
    ensures forall i :: 0 <= i < |CategoryPart(links, c)| ==>
      CategoryPart(links, c)[i].title == c.header && CategoryPart(links, c)[i].colour == c.colour
  {
    ChunksCount(c.alts, 10);
  }

  /** The three categories' embeds laid end to end. */
  lemma LocateEmbedsSplit(links: LocateLinks, probes: seq<AltProbe>)
    ensures var cats := Categories(probes);
      LocateEmbeds(links, probes)
        == CategoryPart(links, cats[0]) + CategoryPart(links, cats[1]) + CategoryPart(links, cats[2])
  {
    var cats := Categories(probes);
    var c1, c2 := cats[..1], cats[..2];
    assert CategoryEmbeds(links, c1) == CategoryPart(links, cats[0]) by {
      assert c1[..0] == [];
    }
    assert CategoryEmbeds(links, c2) == CategoryEmbeds(links, c1) + CategoryPart(links, cats[1]) by {
      assert c2[..1] == c1;
    }
    assert CategoryEmbeds(links, cats) == CategoryEmbeds(links, c2) + CategoryPart(links, cats[2]) by {
      assert cats[..2] == c2;
    }
  }

  /** The three buckets together are as many as the alts. */
  lemma BucketSizes(probes: seq<AltProbe>)
    ensures |BucketEntries(probes, Online)| + |BucketEntries(probes, Offline)| + |BucketEntries(probes, NoTokens)| == |probes|
  {
    BucketsPartition(probes);
    var on, off, nt := BucketEntries(probes, Online), BucketEntries(probes, Offline), BucketEntries(probes, NoTokens);
    assert |multiset(EntryIds(on))| + |multiset(EntryIds(off))| + |multiset(EntryIds(nt))| == |multiset(ProbeIds(probes))|;
  }

  /** `_get_locate_embeds`. */
  function LocateEmbeds(links: LocateLinks, probes: seq<AltProbe>): seq<Embed>
  {
    CategoryEmbeds(links, Categories(probes))
  }

  /** `_get_locate_embeds`, in the order the cog runs it. */
  method GetLocateEmbeds(links: LocateLinks, probes: seq<AltProbe>) returns (outEmbeds: seq<Embed>)
    ensures outEmbeds == LocateEmbeds(links, probes)
  {
    var altOnline, altOffline, altNoToken := SortAlts(probes);
    var categories := [Category("Online Characters", altOnline, Green), Category("Offline Characters", altOffline, Orange),
                       Category("No Tokens", altNoToken, Red)];
    assert categories == Categories(probes);
    outEmbeds := [];
    var c := 0;
    while c < |categories|
      invariant c <= |categories|
      invariant outEmbeds == CategoryEmbeds(links, categories[..c])
    {
      assert categories[..c + 1][..c] == categories[..c];
      var cat := categories[c];
      if |cat.alts| > 0 {
        var more := ProcessAltList(links, cat.header, cat.alts, cat.colour);
        outEmbeds := outEmbeds + more;
      }
      c := c + 1;
    }
    assert categories[..c] == categories;
  }

  lemma AltListEmbedsCount(links: LocateLinks, header: string, es: seq<AltEntry>, colour: Colour)
    ensures |AltListEmbeds(links, header, es, colour)| == CeilDiv(|es|, 10)
    ensures forall e :: e in AltListEmbeds(links, header, es, colour) ==> e.title == header && e.colour == colour
  {
    ChunksCount(es, 10);
  }

  /** Skipping an empty bucket changes nothing: `_process_alt_list` of no alts is no embeds. */
  lemma SkipEmptyIsRedundant(links: LocateLinks, header: string, colour: Colour)
    ensures AltListEmbeds(links, header, [], colour) == []
  {
  }

  /** One embed per ten alts of each bucket; the online ones come first (green), then the offline
      ones (orange), then those without a token (red). */
  lemma LocateEmbedsLayout(links: LocateLinks, probes: seq<AltProbe>)
    ensures var on := |BucketEntries(probes, Online)|;
      var off := |BucketEntries(probes, Offline)|;
      var nt := |BucketEntries(probes, NoTokens)|;
      var r := LocateEmbeds(links, probes);
      && |r| == CeilDiv(on, 10) + CeilDiv(off, 10) + CeilDiv(nt, 10)
      && on + off + nt == |probes|
      && (forall i :: 0 <= i < CeilDiv(on, 10) ==> r[i].title == "Online Characters" && r[i].colour == Green)
      && (forall i :: CeilDiv(on, 10) <= i < CeilDiv(on, 10) + CeilDiv(off, 10) ==>
            r[i].title == "Offline Characters" && r[i].colour == Orange)
      && (forall i :: CeilDiv(on, 10) + CeilDiv(off, 10) <= i < |r| ==> r[i].title == "No Tokens" && r[i].colour == Red)
  {
    var cats := Categories(probes);
    LocateEmbedsSplit(links, probes);
    CategoryPartSpec(links, cats[0]);
    CategoryPartSpec(links, cats[1]);
    CategoryPartSpec(links, cats[2]);
    BucketSizes(probes);
    ThreeParts(CategoryPart(links, cats[0]), CategoryPart(links, cats[1]), CategoryPart(links, cats[2]), cats);
  }

  /** Embeds of the three categories laid end to end carry the titles and colours in that order. */
  lemma ThreeParts(a: seq<Embed>, b: seq<Embed>, c: seq<Embed>, cats: seq<Category>)
    requires |cats| == 3
    requires forall i :: 0 <= i < |a| ==> a[i].title == cats[0].header && a[i].colour == cats[0].colour
    requires forall i :: 0 <= i < |b| ==> b[i].title == cats[1].header && b[i].colour == cats[1].colour
    requires forall i :: 0 <= i < |c| ==> c[i].title == cats[2].header && c[i].colour == cats[2].colour
    ensures var r := a + b + c;
      && (forall i :: 0 <= i < |a| ==> r[i].title == cats[0].header && r[i].colour == cats[0].colour)
      && (forall i :: |a| <= i < |a| + |b| ==> r[i].title == cats[1].header && r[i].colour == cats[1].colour)
      && (forall i :: |a| + |b| <= i < |r| ==> r[i].title == cats[2].header && r[i].colour == cats[2].colour)
  {
    var r := a + b + c;
    forall i | |a| <= i < |a| + |b| ensures r[i] == b[i - |a|] { }
    forall i | |a| + |b| <= i < |r| ensures r[i] == c[i - |a| - |b|] { }
  }

  // ---- the locate command ----

  /** A character that exists: `linked` is `None` when `character_ownership` raises; otherwise the
      main's name (`None` prints as "None"), the Discord uid and the probed alts. */
  datatype LinkedTarget = LinkedTarget(mainName: Option<string>, discordUid: Option<nat>, probes: seq<AltProbe>)
  datatype LocateTarget = LocateTarget(linked: Option<LinkedTarget>)

  function EmbedResponses(es: seq<Embed>): (r: seq<Response>)
    ensures |r| == |es|
  {
    seq(|es|, i requires 0 <= i < |es| => EmbedResponse(es[i]))
  }

  function LocateResponses(links: LocateLinks, character: string, found: Option<LocateTarget>): (r: seq<Response>)
  {
    if found.None? then [TextResponse("Character **" + character + "** does not exist in our Auth system")]
    else if found.value.linked.None? then [TextResponse("Character **" + character + "** Unlinked in auth")]
    else
      var t := found.value.linked.value;
      [TextResponse("Looking up the location of all known alts of "
        + (if t.mainName.Some? then t.mainName.value else "None")
        + " (" + DiscordString(t.discordUid) + ")\nPlease Wait...")]
      + EmbedResponses(LocateEmbeds(links, t.probes))
  }

  /** An unknown character gets the "does not exist" text and an unlinked one the "Unlinked in auth"
      text, each alone; a linked one gets the "please wait" text naming its main and Discord
      account, and then exactly the bucket embeds. */
  lemma LocateResponsesShape(links: LocateLinks, character: string, found: Option<LocateTarget>)
    ensures var r := LocateResponses(links, character, found);
      && |r| >= 1 && r[0].TextResponse?
      && (forall i :: 1 <= i < |r| ==> r[i].EmbedResponse?)
      && (found.None? ==>
            r == [TextResponse("Character **" + character + "** does not exist in our Auth system")])
      && (found.Some? && found.value.linked.None? ==>
            r == [TextResponse("Character **" + character + "** Unlinked in auth")])
      && (found.Some? && found.value.linked.Some? ==>
            var t := found.value.linked.value;
            && r[0] == TextResponse("Looking up the location of all known alts of "
                 + (if t.mainName.Some? then t.mainName.value else "None")
                 + " (" + DiscordString(t.discordUid) + ")\nPlease Wait...")
            && r[1..] == EmbedResponses(LocateEmbeds(links, t.probes))
            && |r| == 1 + |LocateEmbeds(links, t.probes)|)
  {
  }
}
