/** The feed's entities (src/types/betting.ts) and the reading of a parsed
    update envelope as a `MarketData`. */
module Betting {
  import opened Json

  datatype Market = Market(marketId: string, marketName: string)

  datatype InPlayMatch = InPlayMatch(id: string, name: string, sport: string, openDate: string, markets: seq<Market>)

  datatype SubscriptionPayload = SubscriptionPayload(marketId: string, eventId: string, applicationType: string)

  /** A streaming endpoint as the snapshot lists it. */
  datatype Endpoint = Endpoint(url: string)

  /** The snapshot document: its matches and its streaming endpoints. */
  datatype RestResponse = RestResponse(inplayMatches: seq<InPlayMatch>, wssEndpoints: seq<Endpoint>)

  /** One position of a ladder: every key the feed sent (index, odds, amount, ...). */
  datatype PriceLevel = PriceLevel(fields: map<string, Json>) {
    /** `level.odds`; None stands for undefined. */
    function Odds(): Option<Json> {
      if "odds" in fields then Some(fields["odds"]) else None
    }
  }

  /** A runner as the engine uses it: its id, its handicap as sent (None when
      absent), both ladders, and every other key it carried (tv, locked, ...). */
  datatype Runner = Runner(id: string, hc: Option<Json>, bdatb: seq<PriceLevel>, bdatl: seq<PriceLevel>, rest: map<string, Json>)

  /** An update envelope: its id ("" when absent or falsy), its runners (empty when
      `rc` is absent or falsy), and the whole parsed object. */
  datatype MarketData = MarketData(id: string, rc: seq<Runner>, fields: map<string, Json>)

  /** Composite runner key `id-(hc || 0)`, kept as its two parts. */
  datatype RunnerKey = RunnerKey(id: string, hc: real)

  datatype Side = Back | Lay

  /** Change-marker key `<runnerKey>-back-<i>` or `<runnerKey>-lay-<i>`. */
  datatype ChangeKey = ChangeKey(runner: RunnerKey, side: Side, pos: nat)

  datatype Direction = Up | Down

  /** A market in the table: the overlay of every envelope's fields, its runners
      by composite key, and the time of its first sighting. */
  datatype MarketState = MarketState(fields: map<string, Json>, runners: map<RunnerKey, Runner>, lastUpdated: int)

  // ---------------------------------------------------------------------
  // Reading a parsed envelope

  /** An odds value the ladder diff can compare: undefined, null or a number. */
  predicate ComparableOdds(o: Option<Json>) {
    o.None? || o.value.Null? || o.value.Num?
  }

  /** A price level is an object whose odds are absent, null or a number. */
  function ReadLevel(j: Json): (r: Option<PriceLevel>)
    ensures r.Some? ==> j.Obj? && r.value.fields == Fields(j.members) && ComparableOdds(r.value.Odds())
    ensures j.Obj? && ComparableOdds(PriceLevel(Fields(j.members)).Odds()) ==> r.Some?
  {
    match j
    case Obj(members) =>
      var level := PriceLevel(Fields(members));
      if ComparableOdds(level.Odds()) then Some(level) else None
    case _ => None
  }

  /** An array read element by element with `read`: it reads exactly when
      every element does, and then element for element, in order. */
  function ReadEach<T>(items: seq<Json>, read: Json -> Option<T>): (r: Option<seq<T>>)
    ensures r.Some? <==> forall i :: 0 <= i < |items| ==> read(items[i]).Some?
    ensures r.Some? ==> |r.value| == |items| && forall i :: 0 <= i < |items| ==> read(items[i]) == Some(r.value[i])
  {
    if items == [] then Some([])
    else
      var n := |items| - 1;
      var init := ReadEach(items[..n], read);
      var last := read(items[n]);
      assert forall i :: 0 <= i < n ==> items[..n][i] == items[i];
      if init.Some? && last.Some? then Some(init.value + [last.value]) else None
  }

  const RunnerOwnKeys: set<string> := {"id", "hc", "bdatb", "bdatl"}

  /** A runner is an object with a string id, an hc that is absent, null or a
      number, and two ladders that read. */
  function ReadRunner(j: Json): (r: Option<Runner>)
    ensures r.Some? ==> j.Obj? && r.value.rest == Fields(j.members) - RunnerOwnKeys
    ensures r.Some? ==> var f := Fields(j.members);
      && "id" in f && f["id"] == Str(r.value.id)
      && (r.value.hc.None? <==> "hc" !in f)
      && (r.value.hc.Some? ==> r.value.hc.value == f["hc"])
      && "bdatb" in f && f["bdatb"].Arr? && ReadEach(f["bdatb"].items, ReadLevel) == Some(r.value.bdatb)
      && "bdatl" in f && f["bdatl"].Arr? && ReadEach(f["bdatl"].items, ReadLevel) == Some(r.value.bdatl)
    ensures j.Obj? ==> var f := Fields(j.members);
      && "id" in f && f["id"].Str?
      && ("hc" !in f || f["hc"].Null? || f["hc"].Num?)
      && "bdatb" in f && f["bdatb"].Arr? && ReadEach(f["bdatb"].items, ReadLevel).Some?
      && "bdatl" in f && f["bdatl"].Arr? && ReadEach(f["bdatl"].items, ReadLevel).Some?
      ==> r.Some?
  {
    match j
    case Obj(members) =>
      var f := Fields(members);
      if "id" !in f || !f["id"].Str? then None
      else if "hc" in f && !(f["hc"].Null? || f["hc"].Num?) then None
      else if "bdatb" !in f || !f["bdatb"].Arr? || "bdatl" !in f || !f["bdatl"].Arr? then None
      else (
        match (ReadEach(f["bdatb"].items, ReadLevel), ReadEach(f["bdatl"].items, ReadLevel))
        case (Some(back), Some(lay)) =>
          Some(Runner(f["id"].s, if "hc" in f then Some(f["hc"]) else None, back, lay, f - RunnerOwnKeys))
        case _ => None)
    case _ => None
  }

  /** Reads a decoded envelope as a `MarketData`. None for an envelope outside the
      shape the engine dereferences (a non-string truthy id, a truthy `rc` that is
      not an array of runners, or keys that would shadow the engine's own
      `runners` and `lastUpdated`). */
  function ReadMarketData(o: map<string, Json>): (r: Option<MarketData>)
    ensures r.Some? ==> r.value.fields == o
    ensures r.Some? ==> (r.value.id != "" <==> "id" in o && Truthy(o["id"]))
    ensures r.Some? && r.value.id != "" ==> o["id"] == Str(r.value.id)
    ensures r.Some? && ("rc" !in o || !Truthy(o["rc"])) ==> r.value.rc == []
    ensures r.Some? && "rc" in o && Truthy(o["rc"]) ==> o["rc"].Arr? && ReadEach(o["rc"].items, ReadRunner) == Some(r.value.rc)
    ensures r.None? <==>
      || "runners" in o || "lastUpdated" in o
      || ("id" in o && Truthy(o["id"]) && !o["id"].Str?)
      || ("rc" in o && Truthy(o["rc"]) && (!o["rc"].Arr? || ReadEach(o["rc"].items, ReadRunner).None?))
  {
    if "runners" in o || "lastUpdated" in o then None
    else
      var id: Option<string> :=
        if "id" !in o || !Truthy(o["id"]) then Some("")
        else if o["id"].Str? then Some(o["id"].s)
        else None;
      var rc: Option<seq<Runner>> :=
        if "rc" !in o || !Truthy(o["rc"]) then Some([])
        else if o["rc"].Arr? then ReadEach(o["rc"].items, ReadRunner)
        else None;
      if id.Some? && rc.Some? then Some(MarketData(id.value, rc.value, o)) else None
  }
}
