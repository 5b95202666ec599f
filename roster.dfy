/** Rules that `cogs/lookup.py` and `cogs/members.py` share: alt lists cut into capped embed fields,
    kill totals over alts, the own-alliance filter and the per-main tally of a corporation. */
module Roster {
  import opened Wrappers
  import opened Text
  import opened Seqs
  import opened Discord

  /** Alts per embed field, and the most fields the enumerate loop emits before it breaks. */
  const GroupSize: nat := 6
  const MaxGroupFields: nat := 7

  /** The field the loop adds for group `idx` (counted from 0). */
  function GroupField(heading: string, marker: string, sep: string, idx: nat, names: seq<string>): EmbedField
  {
    if idx < 6 then EmbedField(heading + " " + NatToString(idx + 1), Join(names, sep), false)
    else EmbedField(heading + " " + NatToString(idx) + " " + marker, Join(names, sep), false)
  }

  /** The fields for the first `n` groups. */
  function GroupFieldsUpTo(heading: string, marker: string, sep: string, groups: seq<seq<string>>, n: nat): seq<EmbedField>
    requires n <= |groups|
  {
    seq(n, k requires 0 <= k < n => GroupField(heading, marker, sep, k, groups[k]))
  }

  /** The fields emitted for `groups`: at most seven, the seventh carrying the marker. */
  function GroupFields(heading: string, marker: string, sep: string, groups: seq<seq<string>>): seq<EmbedField>
  {
    GroupFieldsUpTo(heading, marker, sep, groups, Min(|groups|, MaxGroupFields))
  }

  /** The `for idx, names in enumerate(chunks): ... break` loop, adding fields to an embed's field list. */
  method AddGroupFields(fields: seq<EmbedField>, heading: string, marker: string, sep: string, names: seq<string>)
    returns (out: seq<EmbedField>)
    ensures out == fields + GroupFields(heading, marker, sep, Chunks(names, GroupSize))
  {
    var groups := Chunks(names, GroupSize);
    out := fields;
    var idx := 0;
    while idx < |groups|
      invariant idx <= |groups| && idx <= 6
      invariant out == fields + GroupFieldsUpTo(heading, marker, sep, groups, idx)
    {
      if idx < 6 {
        out := out + [EmbedField(heading + " " + NatToString(idx + 1), Join(groups[idx], sep), false)];
      } else {
        out := out + [EmbedField(heading + " " + NatToString(idx) + " " + marker, Join(groups[idx], sep), false)];
        assert out == fields + GroupFieldsUpTo(heading, marker, sep, groups, idx + 1);
        break;
      }
      idx := idx + 1;
    }
  }

  /** Field `k` of the first six is named `heading k+1` and lists alts `6k .. 6k+5` in order; a
      seventh field exists exactly when there are more than 36 alts and is named `heading 6 <marker>`. */
  lemma GroupFieldsLayout(heading: string, marker: string, sep: string, names: seq<string>, k: nat)
    requires k < |GroupFields(heading, marker, sep, Chunks(names, GroupSize))|
    ensures var fs := GroupFields(heading, marker, sep, Chunks(names, GroupSize));
      && |fs| == Min(CeilDiv(|names|, GroupSize), MaxGroupFields)
      && (|fs| == MaxGroupFields <==> |names| > 36)
      && 6 * k < |names|
      && fs[k].value == Join(names[6 * k .. Min(6 * k + 6, |names|)], sep)
      && fs[k].inline == false
      && (k < 6 ==> fs[k].name == heading + " " + NatToString(k + 1))
      && (k == 6 ==> fs[k].name == heading + " 6 " + marker)
  {
    var cs := Chunks(names, GroupSize);
    ChunksCount(names, GroupSize);
    CeilDivBounds(|names|, GroupSize);
    ChunkAt(names, GroupSize, k);
    assert k * 6 == 6 * k;
    if |names| > 36 {
      assert CeilDiv(|names|, 6) >= 7;
    } else {
      assert CeilDiv(|names|, 6) <= 6;
    }
  }

  /** The fields show exactly the first `min(n, 42)` alts, in order, and no other. */
  lemma GroupFieldsShowFirst42(names: seq<string>)
    ensures Flatten(Take(Chunks(names, GroupSize), MaxGroupFields)) == names[..Min(|names|, 42)]
  {
    FlattenTakeChunks(names, GroupSize, MaxGroupFields);
  }

  /** The zKillboard statistics row of an alt, when there is one. */
  datatype KillStats = KillStats(zk12m: int, zk3m: int)

  /** `if alt[4]:` -- the 12-month count is present and non-zero. */
  predicate Counted(s: Option<KillStats>)
  {
    s.Some? && s.value.zk12m != 0
  }

  datatype Totals = Totals(zk12: int, zk3: int)

  /** `zk12`, `zk3` after the accumulation loop over the alts' statistics. */
  function KillTotals(stats: seq<Option<KillStats>>): Totals
    decreases |stats|
  {
    if |stats| == 0 then Totals(0, 0)
    else
      var t := KillTotals(stats[..|stats| - 1]);
      var s := stats[|stats| - 1];
      if Counted(s) then Totals(t.zk12 + s.value.zk12m, t.zk3 + s.value.zk3m) else t
  }

  /** The accumulation loop. */
  method SumKills(stats: seq<Option<KillStats>>) returns (zk12: int, zk3: int)
    ensures Totals(zk12, zk3) == KillTotals(stats)
  {
    zk12, zk3 := 0, 0;
    var i := 0;
    while i < |stats|
      invariant i <= |stats|
      invariant Totals(zk12, zk3) == KillTotals(stats[..i])
    {
      assert stats[..i + 1][..i] == stats[..i];
      if stats[i].Some? && stats[i].value.zk12m != 0 {
        zk12 := zk12 + stats[i].value.zk12m;
        zk3 := zk3 + stats[i].value.zk3m;
      }
      i := i + 1;
    }
    assert stats[..i] == stats;
  }

  /** The totals are sums: the totals of two lists of alts add up. */
  lemma {:induction false} KillTotalsAppend(a: seq<Option<KillStats>>, b: seq<Option<KillStats>>)
    ensures KillTotals(a + b).zk12 == KillTotals(a).zk12 + KillTotals(b).zk12
    ensures KillTotals(a + b).zk3 == KillTotals(a).zk3 + KillTotals(b).zk3
    decreases |b|
  {
    if |b| == 0 {
      assert a + b == a;
    } else {
      var b' := b[..|b| - 1];
      assert (a + b)[..|a + b| - 1] == a + b';
      KillTotalsAppend(a, b');
    }
  }

  /** Alts without statistics, or with a zero 12-month count, add nothing -- not even their 3-month count. */
  lemma {:induction false} KillTotalsOfUncounted(stats: seq<Option<KillStats>>)
    requires forall i :: 0 <= i < |stats| ==> !Counted(stats[i])
    ensures KillTotals(stats) == Totals(0, 0)
    decreases |stats|
  {
    if |stats| > 0 {
      KillTotalsOfUncounted(stats[..|stats| - 1]);
    }
  }

  // ---- alt-corp roll-up ----

  /** A main character, as far as the roll-up lines show it. */
  datatype MainChar = MainChar(characterId: nat, name: string, ticker: string, corporationId: nat)

  /** A character of the looked-up corporation; `main` is `None` when following
      `character_ownership.user.profile.main_character` raises or gives `None`. */
  datatype CorpCharacter = CorpCharacter(allianceId: Option<nat>, corporationId: nat, main: Option<MainChar>)

  /** Python values that meet in `alliance_id not in own_ids`. */
  datatype PyValue = PyNone | PyInt(i: int) | PyList(items: seq<PyValue>)

  function PyAlliance(a: Option<nat>): PyValue
  {
    if a.Some? then PyInt(a.value) else PyNone
  }

  function PyIntList(ids: seq<nat>): (r: seq<PyValue>)
    ensures |r| == |ids|
  {
    seq(|ids|, i requires 0 <= i < |ids| => PyInt(ids[i]))
  }

  /** As written: `own_ids = [DISCORD_BOT_MEMBER_ALLIANCES]` puts the list of member alliances inside
      another list, so `alliance_id in own_ids` compares an id with a whole list. */
  predicate InOwnIdsAsWritten(allianceId: Option<nat>, memberAlliances: seq<nat>)
  {
    PyAlliance(allianceId) in [PyList(PyIntList(memberAlliances))]
  }

  /** As written, no character is ever taken out as belonging to a member alliance. */
  lemma OwnIdsAsWrittenExcludeNobody(allianceId: Option<nat>, memberAlliances: seq<nat>)
    ensures !InOwnIdsAsWritten(allianceId, memberAlliances)
  {
  }

  /** A concrete case: a character of alliance 99, with 99 configured as a member alliance, is kept. */
  lemma OwnIdsAsWrittenKeepMember()
    ensures !InOwnIdsAsWritten(Some(99), [99]) && InOwnAlliances(Some(99), [99])
  {
  }

  /** Intended: the character's alliance is one of the member alliances. */
  predicate InOwnAlliances(allianceId: Option<nat>, memberAlliances: seq<nat>)
  {
    allianceId.Some? && allianceId.value in memberAlliances
  }

  /** The characters outside the member alliances, in query order. */
  function AltsInCorp(chars: seq<CorpCharacter>, memberAlliances: seq<nat>): seq<CorpCharacter>
    decreases |chars|
  {
    if |chars| == 0 then []
    else
      var rest := AltsInCorp(chars[..|chars| - 1], memberAlliances);
      var c := chars[|chars| - 1];
      if InOwnAlliances(c.allianceId, memberAlliances) then rest else rest + [c]
  }

  /** A character is kept exactly when it is not in a member alliance. */
  lemma {:induction false} AltsInCorpMembers(chars: seq<CorpCharacter>, memberAlliances: seq<nat>)
    ensures forall c :: c in AltsInCorp(chars, memberAlliances) <==>
      c in chars && !InOwnAlliances(c.allianceId, memberAlliances)
    ensures |AltsInCorp(chars, memberAlliances)| <= |chars|
    decreases |chars|
  {
    if |chars| > 0 {
      var p := chars[..|chars| - 1];
      AltsInCorpMembers(p, memberAlliances);
      assert chars == p + [chars[|chars| - 1]];
    }
  }

  /** As written the members alliance filter lets every character through. */
  function AltsInCorpAsWritten(chars: seq<CorpCharacter>, memberAlliances: seq<nat>): seq<CorpCharacter>
    decreases |chars|
  {
    if |chars| == 0 then []
    else
      var rest := AltsInCorpAsWritten(chars[..|chars| - 1], memberAlliances);
      var c := chars[|chars| - 1];
      if InOwnIdsAsWritten(c.allianceId, memberAlliances) then rest else rest + [c]
  }

  lemma {:induction false} AltsInCorpAsWrittenKeepsAll(chars: seq<CorpCharacter>, memberAlliances: seq<nat>)
    ensures AltsInCorpAsWritten(chars, memberAlliances) == chars
    decreases |chars|
  {
    if |chars| > 0 {
      AltsInCorpAsWrittenKeepsAll(chars[..|chars| - 1], memberAlliances);
      OwnIdsAsWrittenExcludeNobody(chars[|chars| - 1].allianceId, memberAlliances);
    }
  }

  /** The selection loop; it also leaves `corp_id` at the corporation of the last character (0 when none). */
  method SelectAlts(chars: seq<CorpCharacter>, memberAlliances: seq<nat>)
    returns (alts: seq<CorpCharacter>, corpId: nat)
    ensures alts == AltsInCorp(chars, memberAlliances)
    ensures corpId == if |chars| == 0 then 0 else chars[|chars| - 1].corporationId
  {
    alts, corpId := [], 0;
    var i := 0;
    while i < |chars|
      invariant i <= |chars|
      invariant alts == AltsInCorp(chars[..i], memberAlliances)
      invariant corpId == if i == 0 then 0 else chars[i - 1].corporationId
    {
      assert chars[..i + 1][..i] == chars[..i];
      corpId := chars[i].corporationId;
      if !(chars[i].allianceId.Some? && chars[i].allianceId.value in memberAlliances) {
        alts := alts + [chars[i]];
      }
      i := i + 1;
    }
    assert chars[..i] == chars;
  }

  /** One entry of the `mains` dict: the main and how many alts point to it. */
  datatype MainCount = MainCount(main: MainChar, count: nat)

  function IndexOfId(t: seq<MainCount>, id: nat): (r: Option<nat>)
    ensures r.Some? ==> r.value < |t| && t[r.value].main.characterId == id
    ensures r.None? ==> forall i :: 0 <= i < |t| ==> t[i].main.characterId != id
  {
    if |t| == 0 then None
    else if t[0].main.characterId == id then Some(0)
    else
      match IndexOfId(t[1..], id)
      case Some(i) => Some(i + 1)
      case None => None
  }

  /** One alt whose main is known: count it under its main, adding the main at the end when new. */
  function Bump(t: seq<MainCount>, m: MainChar): seq<MainCount>
  {
    match IndexOfId(t, m.characterId)
    case Some(i) => t[i := MainCount(t[i].main, t[i].count + 1)]
    case None => t + [MainCount(m, 1)]
  }

  function MainOf(c: CorpCharacter): Option<MainChar>
  {
    c.main
  }

  /** The `mains` dict in insertion order after the counting loop. */
  function Tally(alts: seq<CorpCharacter>): seq<MainCount>
    decreases |alts|
  {
    if |alts| == 0 then []
    else
      var t := Tally(alts[..|alts| - 1]);
      match alts[|alts| - 1].main
      case Some(m) => Bump(t, m)
      case None => t
  }

  /** The main ids of the alts whose main lookup succeeds, in alt order. */
  function KnownIds(alts: seq<CorpCharacter>): seq<nat>
    decreases |alts|
  {
    if |alts| == 0 then []
    else
      var k := KnownIds(alts[..|alts| - 1]);
      match alts[|alts| - 1].main
      case Some(m) => k + [m.characterId]
      case None => k
  }

  /** How many alts have the main `id`. */
  function CountId(alts: seq<CorpCharacter>, id: nat): nat
    decreases |alts|
  {
    if |alts| == 0 then 0
    else
      var c := CountId(alts[..|alts| - 1], id);
      var m := alts[|alts| - 1].main;
      if m.Some? && m.value.characterId == id then c + 1 else c
  }

  function Ids(t: seq<MainCount>): (r: seq<nat>)
    ensures |r| == |t|
  {
    seq(|t|, i requires 0 <= i < |t| => t[i].main.characterId)
  }

  function SumCounts(t: seq<MainCount>): nat
    decreases |t|
  {
    if |t| == 0 then 0 else SumCounts(t[..|t| - 1]) + t[|t| - 1].count
  }

  lemma {:induction false} SumCountsBump(t: seq<MainCount>, i: nat)
    requires i < |t|
    ensures SumCounts(t[i := MainCount(t[i].main, t[i].count + 1)]) == SumCounts(t) + 1
    decreases |t|
  {
    var u := t[i := MainCount(t[i].main, t[i].count + 1)];
    if i < |t| - 1 {
      assert u[..|u| - 1] == t[..|t| - 1][i := MainCount(t[i].main, t[i].count + 1)];
      SumCountsBump(t[..|t| - 1], i);
    } else {
      assert u[..|u| - 1] == t[..|t| - 1];
    }
  }

  lemma {:induction false} CountIdAbsent(alts: seq<CorpCharacter>, id: nat)
    requires id !in KnownIds(alts)
    ensures CountId(alts, id) == 0
    decreases |alts|
  {
    if |alts| > 0 {
      CountIdAbsent(alts[..|alts| - 1], id);
    }
  }

  /** The roll-up: each known main once, in the order its first alt is met; each count is the
      number of that main's alts and at least 1; the counts add up to `knowns`, the alts whose
      main lookup succeeded (alts whose lookup fails are skipped). */
  lemma TallySpec(alts: seq<CorpCharacter>)
    ensures Ids(Tally(alts)) == Dedup(KnownIds(alts))
    ensures forall i :: 0 <= i < |Tally(alts)| ==>
      Tally(alts)[i].count == CountId(alts, Tally(alts)[i].main.characterId) >= 1
    ensures SumCounts(Tally(alts)) == |KnownIds(alts)|
  {
    TallyIds(alts);
    TallyCounts(alts);
    TallySum(alts);
  }

  lemma {:induction false} TallyIds(alts: seq<CorpCharacter>)
    ensures Ids(Tally(alts)) == Dedup(KnownIds(alts))
    decreases |alts|
  {
    if |alts| > 0 {
      var p := alts[..|alts| - 1];
      var x := alts[|alts| - 1];
      TallyIds(p);
      var t := Tally(p);
      if x.main.Some? {
        var id := x.main.value.characterId;
        var k := KnownIds(alts);
        assert k == KnownIds(p) + [id];
        assert k[..|k| - 1] == KnownIds(p);
        match IndexOfId(t, id)
        case Some(i) => {
          assert Ids(t)[i] == id;
          assert Ids(Tally(alts)) == Ids(t);
        }
        case None => {
          assert id !in Ids(t);
          assert Ids(Tally(alts)) == Ids(t) + [id];
        }
      }
    }
  }

  lemma {:induction false} TallySum(alts: seq<CorpCharacter>)
    ensures SumCounts(Tally(alts)) == |KnownIds(alts)|
    decreases |alts|
  {
    if |alts| > 0 {
      var p := alts[..|alts| - 1];
      var x := alts[|alts| - 1];
      TallySum(p);
      var t := Tally(p);
      if x.main.Some? {
        match IndexOfId(t, x.main.value.characterId)
        case Some(i) => {
          SumCountsBump(t, i);
        }
        case None => {
          var u := Tally(alts);
          assert u[..|u| - 1] == t;
        }
      }
    }
  }

  lemma {:induction false} TallyCounts(alts: seq<CorpCharacter>)
    ensures forall i :: 0 <= i < |Tally(alts)| ==>
      Tally(alts)[i].count == CountId(alts, Tally(alts)[i].main.characterId) >= 1
    decreases |alts|
  {
    if |alts| > 0 {
      var p := alts[..|alts| - 1];
      var x := alts[|alts| - 1];
      TallyCounts(p);
      var t := Tally(p);
      if x.main.Some? {
        var id := x.main.value.characterId;
        match IndexOfId(t, id)
        case Some(i) => {
          TallyIds(p);
          DedupSpec(KnownIds(p));
          forall j | 0 <= j < |t| && j != i ensures t[j].main.characterId != id {
            assert Ids(t)[j] != Ids(t)[i];
          }
        }
        case None => {
          TallyIds(p);
          DedupSpec(KnownIds(p));
          assert id !in Ids(t);
          assert id !in KnownIds(p);
          CountIdAbsent(p, id);
          var u := Tally(alts);
          assert u[..|u| - 1] == t;
        }
      }
    }
  }

  /** `mains`, a dict keyed by main id, together with `keys`, its insertion order, holds the
      roll-up `t`. */
  ghost predicate Mirrors(keys: seq<nat>, mains: map<nat, MainCount>, t: seq<MainCount>)
  {
    && |keys| == |t|
    && (forall j :: 0 <= j < |keys| ==> keys[j] == t[j].main.characterId)
    && (forall id :: id in mains <==> id in keys)
    && (forall j :: 0 <= j < |keys| ==> mains[keys[j]] == t[j])
    && Distinct(keys)
  }

  /** One alt of the counting loop whose main is known: the main's entry is created at count 0
      when new, then counted. */
  method CountAlt(ghost t: seq<MainCount>, keys: seq<nat>, mains: map<nat, MainCount>, m: MainChar)
    returns (keys': seq<nat>, mains': map<nat, MainCount>)
    requires Mirrors(keys, mains, t)
    ensures Mirrors(keys', mains', Bump(t, m))
  {
    keys', mains' := keys, mains;
    var id := m.characterId;
    if id !in mains' {
      assert IndexOfId(t, id).None?;
      keys' := keys' + [id];
      mains' := mains'[id := MainCount(m, 0)];
    } else {
      assert IndexOfId(t, id).Some?;
    }
    mains' := mains'[id := MainCount(mains'[id].main, mains'[id].count + 1)];
  }

  /** `mains.items()` in insertion order. */
  method Items(ghost t: seq<MainCount>, keys: seq<nat>, mains: map<nat, MainCount>) returns (tally: seq<MainCount>)
    requires Mirrors(keys, mains, t)
    ensures tally == t
  {
    tally := [];
    var j := 0;
    while j < |keys|
      invariant j <= |keys|
      invariant tally == t[..j]
    {
      tally := tally + [mains[keys[j]]];
      j := j + 1;
    }
  }

  /** The counting loop; `knowns` counts the alts whose main lookup succeeds, and the result lists
      `mains.items()` in order. */
  method CountMains(alts: seq<CorpCharacter>) returns (tally: seq<MainCount>, knowns: nat)
    ensures tally == Tally(alts)
    ensures knowns == |KnownIds(alts)|
  {
    var keys: seq<nat> := [];
    var mains: map<nat, MainCount> := map[];
    knowns := 0;
    var i := 0;
    while i < |alts|
      invariant i <= |alts|
      invariant Mirrors(keys, mains, Tally(alts[..i]))
      invariant knowns == |KnownIds(alts[..i])|
    {
      assert alts[..i + 1][..i] == alts[..i];
      if alts[i].main.Some? {
        keys, mains := CountAlt(Tally(alts[..i]), keys, mains, alts[i].main.value);
        knowns := knowns + 1;
      }
      i := i + 1;
    }
    assert alts[..i] == alts;
    tally := Items(Tally(alts), keys, mains);
  }

  function Plural(n: nat): (r: string)
    ensures r == "s" <==> n > 1
    ensures r == "" <==> n <= 1
  {
    if n > 1 then "s" else ""
  }

  /** Link builders for a character and a corporation (the evewho URLs in both cogs); they are
      outside the model. */
  datatype Links = Links(character: nat -> string, corporation: nat -> string)

  /** `[main](url) [[ticker](url)] has N <noun>[s]`. */
  function MainLine(links: Links, mc: MainCount, noun: string): string
  {
    "[" + mc.main.name + "](" + links.character(mc.main.characterId) + ") [[" + mc.main.ticker + "]("
      + links.corporation(mc.main.corporationId) + ")] has " + NatToString(mc.count) + " " + noun + Plural(mc.count)
  }

  /** The roll-up lines, one per main in tally order. */
  function MainLines(links: Links, tally: seq<MainCount>, noun: string): (r: seq<string>)
    ensures |r| == |tally|
  {
    seq(|tally|, i requires 0 <= i < |tally| => MainLine(links, tally[i], noun))
  }

  // ---- the character record a lookup reads ----

  /** One of the account's characters: the `values_list` columns, plus the CSV columns. */
  datatype AltRow = AltRow(
    name: string, ticker: string, characterId: nat, corporationId: nat,
    corporationName: string, allianceId: Option<nat>, allianceName: Option<string>,
    stats: Option<KillStats>)

  /** What `char.character_ownership.user` yields: the profile's main (possibly `None`), the state's
      name, group names, the Discord uid (`None` when that lookup raises) and the owned characters. */
  datatype Account = Account(main: Option<MainChar>, state: string, groups: seq<string>,
    discordUid: Option<nat>, alts: seq<AltRow>)

  /** A character found through the ownership records of an unlinked character. */
  datatype FoundChar = FoundChar(name: string, characterId: nat, ticker: string, corporationId: nat)

  /** The `EveCharacter` with the looked-up name; `account` is `None` when `character_ownership`
      raises `ObjectDoesNotExist`, and then `oldUsers` and `found` are the ownership-record queries. */
  datatype CharacterRecord = CharacterRecord(name: string, account: Option<Account>,
    oldUsers: seq<string>, found: seq<FoundChar>)

  function StatsOf(alts: seq<AltRow>): (r: seq<Option<KillStats>>)
    ensures |r| == |alts|
  {
    seq(|alts|, i requires 0 <= i < |alts| => alts[i].stats)
  }

  /** `<@uid>`, or `unknown` when the Discord link cannot be read. */
  function DiscordString(uid: Option<nat>): (r: string)
    ensures uid.Some? ==> r == UserMention(uid.value)
    ensures uid.None? ==> r == "unknown"
  {
    if uid.Some? then UserMention(uid.value) else "unknown"
  }

  /** The fields after the alt fields: `Groups` when there are any, the two kill totals when the
      statistics app is active, and always `Discord Link` last. */
  function AccountTail(acct: Account, groupSep: string, statsActive: bool): seq<EmbedField>
  {
    var t := KillTotals(StatsOf(acct.alts));
    (if |acct.groups| > 0 then [EmbedField("Groups", Join(acct.groups, groupSep), false)] else [])
    + (if statsActive then [EmbedField("12m Kills", IntToString(t.zk12), true),
                            EmbedField("3m Kills", IntToString(t.zk3), true)] else [])
    + [EmbedField("Discord Link", DiscordString(acct.discordUid), false)]
  }

  /** The fields both lookup commands add after the linked characters: the groups when there are
      any, the kill totals when the stats app is active, then the Discord link. */
  method AddAccountTail(fields: seq<EmbedField>, acct: Account, groupSep: string, statsActive: bool)
    returns (out: seq<EmbedField>)
    ensures out == fields + AccountTail(acct, groupSep, statsActive)
  {
    var discordString := if acct.discordUid.Some? then UserMention(acct.discordUid.value) else "unknown";
    var zk12, zk3 := SumKills(StatsOf(acct.alts));
    var groupsField := [];
    if |acct.groups| > 0 {
      groupsField := [EmbedField("Groups", Join(acct.groups, groupSep), false)];
    }
    var killFields := [];
    if statsActive {
      killFields := [EmbedField("12m Kills", IntToString(zk12), true), EmbedField("3m Kills", IntToString(zk3), true)];
    }
    out := fields + groupsField + killFields + [EmbedField("Discord Link", discordString, false)];
  }

  /** `Groups` comes first exactly when the account has groups, the kill totals come before the
      last field exactly when statistics are active, and `Discord Link` is always last. */
  lemma AccountTailLayout(acct: Account, groupSep: string, statsActive: bool)
    ensures var r := AccountTail(acct, groupSep, statsActive);
      && |r| == (if |acct.groups| > 0 then 1 else 0) + (if statsActive then 2 else 0) + 1
      && r[|r| - 1] == EmbedField("Discord Link", DiscordString(acct.discordUid), false)
      && (statsActive ==>
        r[|r| - 3] == EmbedField("12m Kills", IntToString(KillTotals(StatsOf(acct.alts)).zk12), true) &&
        r[|r| - 2] == EmbedField("3m Kills", IntToString(KillTotals(StatsOf(acct.alts)).zk3), true))
      && (|acct.groups| > 0 <==> r[0] == EmbedField("Groups", Join(acct.groups, groupSep), false))
  {
  }
}
