/** Market price checks (`cogs/price_check.py`): one embed per invocation with a header field per
    market, followed by its sell and buy prices or an API error. */
module PriceCheck {
  import opened Wrappers
  import opened Text
  import opened Seqs
  import opened Discord

  /** A market hub: the name shown and the key sent to the appraisal service. */
  datatype Market = Market(name: string, apiKey: string)

  /** The first item of a successful appraisal. `sellMinText` and `buyMaxText` are the prices as
      rendered by `{:,}`. */
  datatype Appraisal = Appraisal(typeId: nat, sellMinText: string, sellCount: nat, buyMaxText: string, buyCount: nat)

  /** The outcome of the appraisal request: a reply with its status and, when the body has the
      expected shape, its first item; or the exception `requests.post` raised (no connection,
      a reset, an invalid reply), with its text. */
  datatype MarketReply =
    | MarketReply(status: nat, appraisal: Option<Appraisal>)
    | Raised(error: string)

  const PriceMarkets := [Market("Jita", "jita"), Market("Amarr", "amarr"), Market("Rens", "rens"),
    Market("Hek", "hek"), Market("Dodixie", "dodixie"), Market("Perimeter", "perimeter")]
  const JitaMarkets := [Market("Jita", "jita")]
  const AmarrMarkets := [Market("Amarr", "amarr")]

  /** The request raised, or a status-200 reply whose body lacks the appraisal item makes the key
      lookup raise. */
  predicate Raises(r: MarketReply)
  {
    r.Raised? || (r.status == 200 && r.appraisal.None?)
  }

  /** A reply with status 200. */
  predicate Answered(r: MarketReply)
  {
    r.MarketReply? && r.status == 200
  }

  const MalformedText := "KeyError: appraisal"

  /** The text of the exception a raising reply ends the command with. */
  function RaiseText(r: MarketReply): string
    requires Raises(r)
  {
    if r.Raised? then r.error else MalformedText
  }

  function ThumbnailUrl(typeId: nat): string
  {
    "https://images.evetech.net/types/" + NatToString(typeId) + "/icon?size=64"
  }

  function HeaderField(item: string, m: Market): EmbedField
  {
    EmbedField(m.name, "Prices for " + item + " on the " + m.name + " Market.", false)
  }

  function SellField(a: Appraisal): EmbedField
  {
    EmbedField("Sell Order Price (" + NatToString(a.sellCount) + " Orders)",
      if a.sellCount == 0 then "No sell orders found" else a.sellMinText + " ISK", true)
  }

  function BuyField(a: Appraisal): EmbedField
  {
    EmbedField("Buy Order Price (" + NatToString(a.buyCount) + " Orders)",
      if a.buyCount == 0 then "No buy orders found" else a.buyMaxText + " ISK", true)
  }

  function ApiErrorField(m: Market): EmbedField
  {
    EmbedField("API Error", "Could not not fetch the price for the " + m.name + " market.", false)
  }

  /** The fields one market adds. */
  function MarketFields(item: string, m: Market, r: MarketReply): seq<EmbedField>
  {
    if r.Raised? then [HeaderField(item, m)]
    else if r.status == 200 && r.appraisal.Some? then [HeaderField(item, m), SellField(r.appraisal.value), BuyField(r.appraisal.value)]
    else if r.status == 200 then [HeaderField(item, m)]
    else [HeaderField(item, m), ApiErrorField(m)]
  }

  function Groups(item: string, markets: seq<Market>, post: Market -> MarketReply): (r: seq<seq<EmbedField>>)
    ensures |r| == |markets|
    ensures forall i :: 0 <= i < |markets| ==> r[i] == MarketFields(item, markets[i], post(markets[i]))
  {
    MapSeq(m => MarketFields(item, m, post(m)), markets)
  }

  /** The icon of the first market that answered with an appraisal. */
  function FirstThumbnail(markets: seq<Market>, post: Market -> MarketReply): Option<string>
    decreases |markets|
  {
    if |markets| == 0 then None
    else
      match FirstThumbnail(markets[..|markets| - 1], post)
      case Some(u) => Some(u)
      case None =>
        var r := post(markets[|markets| - 1]);
        if Answered(r) && r.appraisal.Some? then Some(ThumbnailUrl(r.appraisal.value.typeId)) else None
  }

  /** The text of the first market, in order, whose request or reply raises; `None` when none does. */
  function FirstRaise(markets: seq<Market>, post: Market -> MarketReply): Option<string>
    decreases |markets|
  {
    if |markets| == 0 then None
    else
      match FirstRaise(markets[..|markets| - 1], post)
      case Some(e) => Some(e)
      case None =>
        var r := post(markets[|markets| - 1]);
        if Raises(r) then Some(RaiseText(r)) else None
  }

  /** Nothing is raised exactly when no market raises, and what is raised comes from the first
      market that does. */
  lemma {:induction false} FirstRaiseSpec(markets: seq<Market>, post: Market -> MarketReply)
    ensures FirstRaise(markets, post).None? <==> forall i :: 0 <= i < |markets| ==> !Raises(post(markets[i]))
    ensures FirstRaise(markets, post).Some? ==>
      exists i :: 0 <= i < |markets| && Raises(post(markets[i]))
        && (forall j :: 0 <= j < i ==> !Raises(post(markets[j])))
        && FirstRaise(markets, post) == Some(RaiseText(post(markets[i])))
    decreases |markets|
  {
    if |markets| > 0 {
      var p := markets[..|markets| - 1];
      var last := |markets| - 1;
      FirstRaiseSpec(p, post);
      assert forall i :: 0 <= i < |p| ==> p[i] == markets[i];
      if FirstRaise(p, post).Some? {
        var i :| 0 <= i < |p| && Raises(post(p[i]))
          && (forall j :: 0 <= j < i ==> !Raises(post(p[j])))
          && FirstRaise(p, post) == Some(RaiseText(post(p[i])));
        assert Raises(post(markets[i]));
      } else if Raises(post(markets[last])) {
        assert forall j :: 0 <= j < last ==> !Raises(post(markets[j]));
      }
    }
  }

  const EmptyItemEmbed := Embed("Price Lookup", None, Red,
    [EmbedField("Error", "You forget to enter an item you want to lookup the price for ...", false)], None)

  /** The single embed `price_check` sends, or the first exception a market's request or reply
      raises. */
  function PriceCheck(item: string, markets: seq<Market>, post: Market -> MarketReply): Result<Embed>
  {
    if item == "" then Success(EmptyItemEmbed)
    else if FirstRaise(markets, post).Some? then Failure(FirstRaise(markets, post).value)
    else Success(Embed("Price Lookup for " + item, None, Green, Fields(item, markets, post), FirstThumbnail(markets, post)))
  }

  /** The fields of all markets, market after market. */
  function Fields(item: string, markets: seq<Market>, post: Market -> MarketReply): seq<EmbedField>
    decreases |markets|
  {
    if |markets| == 0 then []
    else Fields(item, markets[..|markets| - 1], post) + MarketFields(item, markets[|markets| - 1], post(markets[|markets| - 1]))
  }

  /** `Fields` is the per-market groups laid end to end: every market's fields, in market order. */
  lemma {:induction false} FieldsAreGroups(item: string, markets: seq<Market>, post: Market -> MarketReply)
    ensures Fields(item, markets, post) == Flatten(Groups(item, markets, post))
    decreases |markets|
  {
    if |markets| > 0 {
      var p := markets[..|markets| - 1];
      var m := markets[|markets| - 1];
      FieldsAreGroups(item, p, post);
      MapSeqPrefix(m => MarketFields(item, m, post(m)), markets);
      FlattenAppend(Groups(item, p, post), MarketFields(item, m, post(m)));
    }
  }

  /** One more market appends its fields and can only set a missing thumbnail. */
  lemma PriceStep(item: string, markets: seq<Market>, i: nat, post: Market -> MarketReply)
    requires i < |markets|
    ensures Fields(item, markets[..i + 1], post)
      == Fields(item, markets[..i], post) + MarketFields(item, markets[i], post(markets[i]))
    ensures FirstRaise(markets[..i + 1], post) ==
      if FirstRaise(markets[..i], post).Some? then FirstRaise(markets[..i], post)
      else if Raises(post(markets[i])) then Some(RaiseText(post(markets[i])))
      else None
    ensures var r := post(markets[i]);
      FirstThumbnail(markets[..i + 1], post) ==
        if FirstThumbnail(markets[..i], post).Some? then FirstThumbnail(markets[..i], post)
        else if Answered(r) && r.appraisal.Some? then Some(ThumbnailUrl(r.appraisal.value.typeId))
        else None
  {
    assert markets[..i + 1][..i] == markets[..i];
  }

  /** The first raise among the first `k` markets is the first raise among all of them. */
  lemma {:induction false} RaisePrefix(markets: seq<Market>, k: nat, post: Market -> MarketReply)
    requires k <= |markets| && FirstRaise(markets[..k], post).Some?
    ensures FirstRaise(markets, post) == FirstRaise(markets[..k], post)
    decreases |markets| - k
  {
    if k < |markets| {
      assert markets[..k + 1][..k] == markets[..k];
      RaisePrefix(markets, k + 1, post);
    } else {
      assert markets[..k] == markets;
    }
  }

  /** The body of the markets loop: the header, then the request, then the prices or the API
      error; the thumbnail is set on the first success only. `ok` is false when the request raised
      or the reply body has no appraisal item. */
  method AddMarket(item: string, m: Market, reply: MarketReply, fields: seq<EmbedField>,
    thumbnail: Option<string>, hasThumbnail: bool)
    returns (ok: bool, fields': seq<EmbedField>, thumbnail': Option<string>, hasThumbnail': bool)
    requires hasThumbnail <==> thumbnail.Some?
    ensures ok <==> !Raises(reply)
    ensures ok ==> fields' == fields + MarketFields(item, m, reply)
    ensures ok ==> thumbnail' == (if thumbnail.Some? then thumbnail
      else if Answered(reply) then Some(ThumbnailUrl(reply.appraisal.value.typeId)) else None)
    ensures hasThumbnail' <==> thumbnail'.Some?
  {
    thumbnail', hasThumbnail' := thumbnail, hasThumbnail;
    fields' := fields + [HeaderField(item, m)];
    if reply.Raised? {
      return false, fields', thumbnail', hasThumbnail';
    }
    if reply.status == 200 {
      if reply.appraisal.None? {
        return false, fields', thumbnail', hasThumbnail';
      }
      var a := reply.appraisal.value;
      if !hasThumbnail' {
        thumbnail' := Some(ThumbnailUrl(a.typeId));
        hasThumbnail' := true;
      }
      fields' := fields' + [SellField(a), BuyField(a)];
      assert fields' == fields + [HeaderField(item, m), SellField(a), BuyField(a)];
    } else {
      fields' := fields' + [ApiErrorField(m)];
      assert fields' == fields + [HeaderField(item, m), ApiErrorField(m)];
    }
    ok := true;
  }

  /** `price_check`: the loop over the markets with the `has_thumbnail` flag. */
  method RunPriceCheck(item: string, markets: seq<Market>, post: Market -> MarketReply) returns (sent: Result<Embed>)
    ensures sent == PriceCheck(item, markets, post)
  {
    if item == "" {
      return Success(EmptyItemEmbed);
    }
    var fields: seq<EmbedField> := [];
    var thumbnail: Option<string> := None;
    var hasThumbnail := false;
    var i := 0;
    while i < |markets|
      invariant i <= |markets|
      invariant fields == Fields(item, markets[..i], post)
      invariant thumbnail == FirstThumbnail(markets[..i], post)
      invariant hasThumbnail <==> thumbnail.Some?
      invariant FirstRaise(markets[..i], post).None?
    {
      var ok;
      ok, fields, thumbnail, hasThumbnail := AddMarket(item, markets[i], post(markets[i]), fields, thumbnail, hasThumbnail);
      PriceStep(item, markets, i, post);
      if !ok {
        RaisePrefix(markets, i + 1, post);
        return Failure(RaiseText(post(markets[i])));
      }
      i := i + 1;
    }
    assert markets[..i] == markets;
    sent := Success(Embed("Price Lookup for " + item, None, Green, fields, thumbnail));
  }

  /** `!price`, `!jita` and `!amarr`: the item is what follows the command word. */
  function PriceCommand(content: string, post: Market -> MarketReply): Result<Embed>
  {
    PriceCheck(DropPrefix(content, 7), PriceMarkets, post)
  }

  function JitaCommand(content: string, post: Market -> MarketReply): Result<Embed>
  {
    PriceCheck(DropPrefix(content, 6), JitaMarkets, post)
  }

  function AmarrCommand(content: string, post: Market -> MarketReply): Result<Embed>
  {
    PriceCheck(DropPrefix(content, 7), AmarrMarkets, post)
  }

  /** The item of `!price Tritanium` is `Tritanium`: the command word and one space go. */
  lemma CommandItems(item: string, post: Market -> MarketReply)
    ensures PriceCommand("!price " + item, post) == PriceCheck(item, PriceMarkets, post)
    ensures JitaCommand("!jita " + item, post) == PriceCheck(item, JitaMarkets, post)
    ensures AmarrCommand("!amarr " + item, post) == PriceCheck(item, AmarrMarkets, post)
  {
    var p, j, a := "!price " + item, "!jita " + item, "!amarr " + item;
    assert p[7..] == item;
    assert j[6..] == item;
    assert a[7..] == item;
    assert DropPrefix(p, 7) == item && DropPrefix(j, 6) == item && DropPrefix(a, 7) == item;
  }

  /** `!price` asks the six hubs in this order; `!jita` and `!amarr` one each. */
  lemma MarketNames()
    ensures Names(PriceMarkets) == ["Jita", "Amarr", "Rens", "Hek", "Dodixie", "Perimeter"]
    ensures Names(JitaMarkets) == ["Jita"] && Names(AmarrMarkets) == ["Amarr"]
  {
  }

  function Names(markets: seq<Market>): seq<string>
  {
    seq(|markets|, i requires 0 <= i < |markets| => markets[i].name)
  }

  /** An empty item name always gives the red error embed with its single `Error` field. */
  lemma EmptyItemSpec(markets: seq<Market>, post: Market -> MarketReply)
    ensures var r := PriceCheck("", markets, post);
      && r.Success? && r.value.colour == Red && |r.value.fields| == 1
      && r.value.fields[0].name == "Error" && r.value.thumbnail.None?
  {
  }

  /** Each market's fields start with its header; a successful market adds its sell and buy
      prices (with the no-orders texts for a count of 0), any other status one `API Error`. */
  lemma MarketFieldsSpec(item: string, m: Market, r: MarketReply)
    requires !Raises(r)
    ensures var g := MarketFields(item, m, r);
      && g[0].name == m.name && !g[0].inline
      && (r.status == 200 ==>
            && |g| == 3 && g[1].inline && g[2].inline
            && (g[1].value == "No sell orders found" <==> r.appraisal.value.sellCount == 0)
            && (g[2].value == "No buy orders found" <==> r.appraisal.value.buyCount == 0))
      && (r.status != 200 ==> |g| == 2 && g[1].name == "API Error")
  {
    if r.status == 200 {
      var a := r.appraisal.value;
      if a.sellCount != 0 {
        var g := MarketFields(item, m, r);
        assert g[1].value[|a.sellMinText|..] == " ISK";
      }
      if a.buyCount != 0 {
        var g := MarketFields(item, m, r);
        assert g[2].value[|a.buyMaxText|..] == " ISK";
      }
    }
  }

  /** The thumbnail is the icon of the first market that answered with status 200, and there is
      none when no market did. */
  lemma {:induction false} FirstThumbnailSpec(markets: seq<Market>, post: Market -> MarketReply)
    requires forall i :: 0 <= i < |markets| ==> !Raises(post(markets[i]))
    ensures FirstThumbnail(markets, post).None? <==> forall i :: 0 <= i < |markets| ==> !Answered(post(markets[i]))
    ensures FirstThumbnail(markets, post).Some? ==>
      exists i :: 0 <= i < |markets| && Answered(post(markets[i])) && post(markets[i]).appraisal.Some?
        && (forall j :: 0 <= j < i ==> !Answered(post(markets[j])))
        && FirstThumbnail(markets, post) == Some(ThumbnailUrl(post(markets[i]).appraisal.value.typeId))
    decreases |markets|
  {
    if |markets| > 0 {
      var p := markets[..|markets| - 1];
      var last := |markets| - 1;
      assert forall i :: 0 <= i < |p| ==> p[i] == markets[i];
      FirstThumbnailSpec(p, post);
      if FirstThumbnail(p, post).Some? {
        var i :| 0 <= i < |p| && Answered(post(p[i])) && post(p[i]).appraisal.Some?
          && (forall j :: 0 <= j < i ==> !Answered(post(p[j])))
          && FirstThumbnail(p, post) == Some(ThumbnailUrl(post(p[i]).appraisal.value.typeId));
        assert Answered(post(markets[i]));
      } else if Answered(post(markets[last])) {
        assert forall j :: 0 <= j < last ==> !Answered(post(markets[j]));
      }
    }
  }

  /** The price check fails exactly when some market's request or reply raises, and then with the
      exception of the first market that does: the markets after it are never asked. */
  lemma PriceCheckFails(item: string, markets: seq<Market>, post: Market -> MarketReply)
    requires item != ""
    ensures PriceCheck(item, markets, post).Failure? <==> exists i :: 0 <= i < |markets| && Raises(post(markets[i]))
    ensures PriceCheck(item, markets, post).Failure? ==>
      exists i :: 0 <= i < |markets| && Raises(post(markets[i]))
        && (forall j :: 0 <= j < i ==> !Raises(post(markets[j])))
        && PriceCheck(item, markets, post).error == RaiseText(post(markets[i]))
  {
    FirstRaiseSpec(markets, post);
  }

  /** When no market raises, the embed holds every market's fields in market order, so a market
      answering with an error status does not stop the later ones. */
  lemma PriceCheckSpec(item: string, markets: seq<Market>, post: Market -> MarketReply)
    requires item != "" && forall i :: 0 <= i < |markets| ==> !Raises(post(markets[i]))
    ensures PriceCheck(item, markets, post).Success?
    ensures var e := PriceCheck(item, markets, post).value;
      && e.title == "Price Lookup for " + item && e.colour == Green
      && e.fields == Flatten(Groups(item, markets, post))
      && e.thumbnail == FirstThumbnail(markets, post)
  {
    FirstRaiseSpec(markets, post);
    FieldsAreGroups(item, markets, post);
  }
}
