/** The subscription list derived from the snapshot, and the frame that carries
    it to the streaming endpoint (src/hooks/useBettingData.ts:31-42, 80-83). */
module Subscription {
  import opened Json
  import opened Betting

  const ApplicationType: string := "WEB"

  /** The request for one market of one match. */
  function Entry(m: InPlayMatch, market: Market): SubscriptionPayload {
    SubscriptionPayload(market.marketId, m.id, ApplicationType)
  }

  /** The requests for one match, in the order of its markets. */
  function Row(m: InPlayMatch): (r: seq<SubscriptionPayload>)
    ensures |r| == |m.markets|
    ensures forall j :: 0 <= j < |m.markets| ==> r[j] == Entry(m, m.markets[j])
  {
    seq(|m.markets|, j requires 0 <= j < |m.markets| => Entry(m, m.markets[j]))
  }

  /** The whole list: every match's row, in match order. Every request is a
      `WEB` request for one of the snapshot's matches. */
  function Flatten(matches: seq<InPlayMatch>): (r: seq<SubscriptionPayload>)
    ensures forall k :: 0 <= k < |r| ==> r[k].applicationType == ApplicationType
    ensures forall k :: 0 <= k < |r| ==> exists i :: 0 <= i < |matches| && r[k].eventId == matches[i].id
  {
    if matches == [] then []
    else
      var n := |matches| - 1;
      assert forall i :: 0 <= i < n ==> matches[..n][i] == matches[i];
      Flatten(matches[..n]) + Row(matches[n])
  }

  function TotalMarkets(matches: seq<InPlayMatch>): nat {
    if matches == [] then 0
    else TotalMarkets(matches[..|matches| - 1]) + |matches[|matches| - 1].markets|
  }

  /** The nested `forEach` loops of fetchMatches that push one request per
      (match, market) pair. */
  method BuildSubscription(matches: seq<InPlayMatch>) returns (subscription: seq<SubscriptionPayload>)
    ensures subscription == Flatten(matches)
  {
    subscription := [];
    for i := 0 to |matches|
      invariant subscription == Flatten(matches[..i])
    {
      var m := matches[i];
      ghost var before := subscription;
      for j := 0 to |m.markets|
        invariant subscription == before + Row(m)[..j]
      {
        subscription := subscription + [Entry(m, m.markets[j])];
        assert Row(m)[..j + 1] == Row(m)[..j] + [Entry(m, m.markets[j])];
      }
      assert Row(m)[..|m.markets|] == Row(m);
      assert matches[..i + 1][..i] == matches[..i];
    }
    assert matches[..|matches|] == matches;
  }

  /** One entry per market: the list is as long as the snapshot has markets. */
  lemma {:induction false} FlattenLength(matches: seq<InPlayMatch>)
    ensures |Flatten(matches)| == TotalMarkets(matches)
  {
    if matches != [] {
      FlattenLength(matches[..|matches| - 1]);
    }
  }

  /** Match-then-market order: market j of match i sits right after the markets
      of the matches before i, carries that market's id, the match's id as its
      eventId, and the fixed application type. */
  lemma {:induction false} FlattenAt(matches: seq<InPlayMatch>, i: nat, j: nat)
    requires i < |matches| && j < |matches[i].markets|
    ensures TotalMarkets(matches[..i]) + j < |Flatten(matches)|
    ensures Flatten(matches)[TotalMarkets(matches[..i]) + j]
            == SubscriptionPayload(matches[i].markets[j].marketId, matches[i].id, "WEB")
  {
    var n := |matches| - 1;
    var init := matches[..n];
    FlattenLength(init);
    FlattenLength(matches);
    if i == n {
      assert matches[..i] == init;
    } else {
      assert init[..i] == matches[..i];
      FlattenAt(init, i, j);
    }
  }

  /** Conversely, every entry of the list is the request of some (match, market)
      pair at that pair's position. */
  lemma {:induction false} FlattenFrom(matches: seq<InPlayMatch>, k: nat)
    requires k < |Flatten(matches)|
    ensures exists i, j :: 0 <= i < |matches| && 0 <= j < |matches[i].markets|
              && k == TotalMarkets(matches[..i]) + j
              && Flatten(matches)[k] == Entry(matches[i], matches[i].markets[j])
  {
    var n := |matches| - 1;
    var init := matches[..n];
    FlattenLength(init);
    if k < |Flatten(init)| {
      FlattenFrom(init, k);
      var i, j :| 0 <= i < |init| && 0 <= j < |init[i].markets|
              && k == TotalMarkets(init[..i]) + j
              && Flatten(init)[k] == Entry(init[i], init[i].markets[j]);
      assert init[..i] == matches[..i];
      assert Flatten(matches)[k] == Entry(matches[i], matches[i].markets[j]);
    } else {
      var j := k - |Flatten(init)|;
      assert matches[..n] == init;
      assert Flatten(matches)[k] == Row(matches[n])[j];
    }
  }

  // ---------------------------------------------------------------------
  // The outbound frame

  /** JSON.stringify of one request: keys in the order the request is built. */
  function EntryText(p: SubscriptionPayload): (r: string)
    ensures |r| > |MarketIdKey| && r[..|MarketIdKey|] == MarketIdKey && r[|r| - 1] == '}'
  {
    MarketIdKey + (Quote(p.marketId)
      + (EventIdKey + (Quote(p.eventId)
      + (ApplicationTypeKey + (Quote(p.applicationType) + "}")))))
  }

  /** Texts separated by commas. */
  function Join(ts: seq<string>): (r: string)
    ensures ts != [] ==> |r| >= |ts[0]|
  {
    if ts == [] then ""
    else if |ts| == 1 then ts[0]
    else ts[0] + ("," + Join(ts[1..]))
  }

  /** The text of each request, in list order. */
  function EntryTexts(list: seq<SubscriptionPayload>): (ts: seq<string>)
    ensures |ts| == |list| && forall i :: 0 <= i < |list| ==> ts[i] == EntryText(list[i])
  {
    seq(|list|, i requires 0 <= i < |list| => EntryText(list[i]))
  }

  /** JSON.stringify of the whole list: an array literal, `[]` when empty. */
  function PayloadText(list: seq<SubscriptionPayload>): (r: string)
    ensures |r| >= 2 && r[0] == '[' && r[|r| - 1] == ']'
    ensures list == [] <==> r == "[]"
  {
    "[" + Join(EntryTexts(list)) + "]"
  }

  /** The message sent on open: the payload, JSON-string-encoded once more and
      wrapped in a one-element array literal. The frame is one array literal
      holding one string literal whose contents read back as exactly the
      stringified list. */
  function SubscriptionMessage(list: seq<SubscriptionPayload>): (msg: string)
    ensures |msg| >= 4 && msg[0] == '[' && msg[1] == '"' && msg[|msg| - 2] == '"' && msg[|msg| - 1] == ']'
    ensures Unquote(msg[1..|msg| - 1]) == Some(PayloadText(list))
    ensures ReadPayload(Unquote(msg[1..|msg| - 1]).value) == Some(list)
  {
    var m := "[" + Quote(PayloadText(list)) + "]";
    assert m[1..|m| - 1] == Quote(PayloadText(list));
    UnquoteQuote(PayloadText(list));
    PayloadRoundTrip(list);
    m
  }

  // ---------------------------------------------------------------------
  // Reading the list back

  const MarketIdKey: string := "{\"marketId\":"
  const EventIdKey: string := ",\"eventId\":"
  const ApplicationTypeKey: string := ",\"applicationType\":"

  /** What follows the literal text `lit` at the head of `t`, if it is there. */
  function Expect(t: string, lit: string): (r: Option<string>)
    ensures r.Some? ==> |r.value| == |t| - |lit|
  {
    if |lit| <= |t| && t[..|lit|] == lit then Some(t[|lit|..]) else None
  }

  lemma ExpectPrefix(lit: string, rest: string)
    ensures Expect(lit + rest, lit) == Some(rest)
  {
    assert (lit + rest)[..|lit|] == lit && (lit + rest)[|lit|..] == rest;
  }

  /** Reads one request written in the layout of `EntryText`, and what follows it. */
  function ReadEntry(t: string): (r: Option<(SubscriptionPayload, string)>)
    ensures r.Some? ==> |r.value.1| < |t|
  {
    match Expect(t, MarketIdKey)
    case None => None
    case Some(t1) =>
      match ReadLiteral(t1)
      case None => None
      case Some((marketId, t2)) =>
        match Expect(t2, EventIdKey)
        case None => None
        case Some(t3) =>
          match ReadLiteral(t3)
          case None => None
          case Some((eventId, t4)) =>
            match Expect(t4, ApplicationTypeKey)
            case None => None
            case Some(t5) =>
              match ReadLiteral(t5)
              case None => None
              case Some((applicationType, t6)) =>
                match Expect(t6, "}")
                case None => None
                case Some(t7) => Some((SubscriptionPayload(marketId, eventId, applicationType), t7))
  }

  /** Reads comma-separated items with `item`, and what follows the last one.
      An item reader that consumes nothing ends the list. */
  function ReadList<T>(t: string, item: string -> Option<(T, string)>): Option<(seq<T>, string)>
    decreases |t|
  {
    match item(t)
    case None => None
    case Some((x, rest)) =>
      if rest != [] && rest[0] == ',' && |rest| <= |t| then
        match ReadList(rest[1..], item)
        case None => None
        case Some((xs, rest2)) => Some(([x] + xs, rest2))
      else Some(([x], rest))
  }

  /** Reads a whole array literal with `item`: `[]`, or items between
      brackets with nothing after the closing one. */
  function ReadArray<T>(t: string, item: string -> Option<(T, string)>): Option<seq<T>> {
    if t == "[]" then Some([])
    else if t != [] && t[0] == '[' then
      match ReadList(t[1..], item)
      case None => None
      case Some((xs, rest)) => if rest == "]" then Some(xs) else None
    else None
  }

  /** Reads a whole stringified list of requests. */
  function ReadPayload(t: string): Option<seq<SubscriptionPayload>> {
    ReadArray(t, ReadEntry)
  }

  /** A request's text reads back as that request: every field sits in its
      own literal and nothing is lost. */
  lemma ReadEntryText(p: SubscriptionPayload, rest: string)
    ensures ReadEntry(EntryText(p) + rest) == Some((p, rest))
  {
    var q1, q2, q3 := Quote(p.marketId), Quote(p.eventId), Quote(p.applicationType);
    var e6 := "}";
    var e5 := q3 + e6;
    var e4 := ApplicationTypeKey + e5;
    var e3 := q2 + e4;
    var e2 := EventIdKey + e3;
    var e1 := q1 + e2;
    Regroup(MarketIdKey, e1, rest);
    Regroup(q1, e2, rest);
    Regroup(EventIdKey, e3, rest);
    Regroup(q2, e4, rest);
    Regroup(ApplicationTypeKey, e5, rest);
    Regroup(q3, e6, rest);
    ExpectPrefix(MarketIdKey, e1 + rest);
    ReadLiteralQuote(p.marketId, e2 + rest);
    ExpectPrefix(EventIdKey, e3 + rest);
    ReadLiteralQuote(p.eventId, e4 + rest);
    ExpectPrefix(ApplicationTypeKey, e5 + rest);
    ReadLiteralQuote(p.applicationType, e6 + rest);
    ExpectPrefix("}", rest);
  }

  lemma Regroup(a: string, b: string, c: string)
    ensures a + b + c == a + (b + c)
  {
  }

  /** Texts that each read back as their item, joined by commas, read back as
      the items, leaving what follows them. */
  lemma {:induction false} ReadListJoin<T>(ts: seq<string>, xs: seq<T>, item: string -> Option<(T, string)>, rest: string)
    requires ts != [] && |ts| == |xs| && (rest == [] || rest[0] != ',')
    requires forall i, more :: 0 <= i < |ts| ==> item(ts[i] + more) == Some((xs[i], more))
    ensures ReadList(Join(ts) + rest, item) == Some((xs, rest))
  {
    var t0 := ts[0] + rest;
    if |ts| == 1 {
      assert Join(ts) + rest == t0;
      assert item(t0) == Some((xs[0], rest));
      assert [xs[0]] == xs;
    } else {
      var more := Join(ts[1..]) + rest;
      assert Join(ts) == ts[0] + ("," + Join(ts[1..]));
      CommaRegroup(ts[0], Join(ts[1..]), rest);
      assert item(ts[0] + ("," + more)) == Some((xs[0], "," + more));
      assert ("," + more)[1..] == more;
      assert forall i :: 0 <= i < |ts| - 1 ==> ts[1..][i] == ts[i + 1] && xs[1..][i] == xs[i + 1];
      ReadListJoin(ts[1..], xs[1..], item, rest);
      assert [xs[0]] + xs[1..] == xs;
    }
  }

  lemma CommaRegroup(e: string, j: string, rest: string)
    ensures e + ("," + j) + rest == e + ("," + (j + rest))
  {
  }

  /** The stringified list reads back as exactly the list: every request, with
      every field, in order. */
  lemma PayloadRoundTrip(list: seq<SubscriptionPayload>)
    ensures ReadPayload(PayloadText(list)) == Some(list)
  {
    if list != [] {
      var ts := EntryTexts(list);
      EntryTextsRead(list);
      ReadListJoin(ts, list, ReadEntry, "]");
      ReadBracketed(Join(ts), list, ReadEntry);
    }
  }

  lemma EntryTextsRead(list: seq<SubscriptionPayload>)
    ensures forall i, more :: 0 <= i < |list| ==>
              ReadEntry(EntryTexts(list)[i] + more) == Some((list[i], more))
  {
    forall i, more | 0 <= i < |list| ensures ReadEntry(EntryTexts(list)[i] + more) == Some((list[i], more)) {
      ReadEntryText(list[i], more);
    }
  }

  /** A bracketed body whose items read up to the closing bracket reads back
      as those items. */
  lemma ReadBracketed<T>(body: string, xs: seq<T>, item: string -> Option<(T, string)>)
    requires body != [] && ReadList(body + "]", item) == Some((xs, "]"))
    ensures ReadArray("[" + body + "]", item) == Some(xs)
  {
    var t := "[" + body + "]";
    assert t[1..] == body + "]";
    assert t != "[]" by { assert |t| > 2; }
  }
}
