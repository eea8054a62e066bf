/** The state reconciler (src/hooks/useBettingData.ts:154-237): the market table,
    the per-market change markers, and the merge of one update envelope.

    The pure functions below are the specification; the class `MarketTable`
    performs the same merge in place, with the loops of the source, and is
    proved against them. A marker batch's identity (the source compares Map
    references) is a serial number drawn from a counter; the 600 ms timer that
    clears a batch is the explicit call `Expire(marketId, serial)`. */
module Reconciler {
  import opened Json
  import opened Betting

  /** How long a marker batch lives, in milliseconds. */
  const MarkerLifetime: nat := 600

  // ---------------------------------------------------------------------
  // Runner keys and ladder diffing

  /** The composite key `${id}-${hc || 0}`: a falsy handicap (absent, null or 0)
      counts as 0, a truthy number as itself. */
  function KeyOf(r: Runner): (k: RunnerKey)
    ensures k.id == r.id
    ensures r.hc.None? || !Truthy(r.hc.value) ==> k.hc == 0.0
    ensures r.hc.Some? && r.hc.value.Num? && Truthy(r.hc.value) ==> k.hc == r.hc.value.n
  {
    RunnerKey(r.id, if r.hc.Some? && r.hc.value.Num? then r.hc.value.n else 0.0)
  }

  /** ToNumber of an odds value for `>`; None stands for NaN (undefined). */
  function OddsNumber(o: Option<Json>): Option<real> {
    if o.None? then None
    else match o.value
      case Null => Some(0.0)
      case Num(n) => Some(n)
      case _ => None
  }

  /** `after > before ? 'up' : 'down'`: missing odds (undefined) compare false
      either way, and null compares as 0. */
  function Towards(before: Option<Json>, after: Option<Json>): (d: Direction)
    ensures before.None? || after.None? ==> d == Down
    ensures before.Some? && before.value.Num? && after.Some? && after.value.Num? ==>
              (d == Up <==> after.value.n > before.value.n)
    ensures before.Some? && before.value.Null? && after.Some? && after.value.Num? ==>
              (d == Up <==> after.value.n > 0.0)
    ensures before.Some? && before.value.Num? && after.Some? && after.value.Null? ==>
              (d == Up <==> 0.0 > before.value.n)
  {
    var a := OddsNumber(after);
    var b := OddsNumber(before);
    if a.Some? && b.Some? && a.value > b.value then Up else Down
  }

  /** The markers one ladder of one runner produces, position by position. */
  function LadderMarks(rk: RunnerKey, side: Side, before: seq<PriceLevel>, after: seq<PriceLevel>): (m: map<ChangeKey, Direction>)
    ensures forall ck :: ck in m ==> ck.runner == rk && ck.side == side && ck.pos < |after| && ck.pos < |before|
    decreases |after|
  {
    if after == [] then map[]
    else
      var i := |after| - 1;
      var m := LadderMarks(rk, side, before, after[..i]);
      if i < |before| && after[i].Odds() != before[i].Odds()
      then m[ChangeKey(rk, side, i) := Towards(before[i].Odds(), after[i].Odds())]
      else m
  }

  /** Exactly the positions present in both ladders whose odds differ get a
      marker, pointing up iff the odds rose; positions are compared by place in
      the array, and positions the new ladder adds get none. */
  lemma {:induction false} LadderMarksExact(rk: RunnerKey, side: Side, before: seq<PriceLevel>, after: seq<PriceLevel>, ck: ChangeKey)
    ensures ck in LadderMarks(rk, side, before, after) <==>
            && ck.runner == rk && ck.side == side
            && ck.pos < |after| && ck.pos < |before|
            && after[ck.pos].Odds() != before[ck.pos].Odds()
    ensures ck in LadderMarks(rk, side, before, after) ==>
            LadderMarks(rk, side, before, after)[ck] == Towards(before[ck.pos].Odds(), after[ck.pos].Odds())
    decreases |after|
  {
    if after != [] {
      var i := |after| - 1;
      var m := LadderMarks(rk, side, before, after[..i]);
      LadderMarksExact(rk, side, before, after[..i], ck);
      if ck.pos < i {
        assert after[..i][ck.pos] == after[ck.pos];
      }
      if i < |before| && after[i].Odds() != before[i].Odds() {
        assert LadderMarks(rk, side, before, after) == m[ChangeKey(rk, side, i) := Towards(before[i].Odds(), after[i].Odds())];
      } else {
        assert LadderMarks(rk, side, before, after) == m;
      }
    }
  }

  /** Marker batches are built by union, which regroups freely. */
  lemma UnionAssoc<K, V>(a: map<K, V>, b: map<K, V>, c: map<K, V>)
    ensures a + b + c == a + (b + c)
  {
  }

  lemma UnionUpdate<K, V>(a: map<K, V>, b: map<K, V>, k: K, v: V)
    ensures (a + b)[k := v] == a + b[k := v]
  {
  }

  lemma UnionEmpty<K, V>(a: map<K, V>)
    ensures map[] + a == a
  {
  }

  /** The ladder diff as the source runs it: a `forEach` over the new ladder
      that adds to the batch being built. */
  method DiffLadder(rk: RunnerKey, side: Side, before: seq<PriceLevel>, after: seq<PriceLevel>,
                    marks0: map<ChangeKey, Direction>) returns (marks: map<ChangeKey, Direction>)
    ensures marks == marks0 + LadderMarks(rk, side, before, after)
  {
    marks := marks0;
    for i := 0 to |after|
      invariant marks == marks0 + LadderMarks(rk, side, before, after[..i])
    {
      assert after[..i + 1][..i] == after[..i];
      if i < |before| && after[i].Odds() != before[i].Odds() {
        var ck, d := ChangeKey(rk, side, i), Towards(before[i].Odds(), after[i].Odds());
        ghost var m := LadderMarks(rk, side, before, after[..i]);
        UnionUpdate(marks0, m, ck, d);
        marks := marks[ck := d];
      }
    }
    assert after[..|after|] == after;
  }

  /** Old back odds 1.90 and new back odds 2.00 at position 0 give `back-0 = up`. */
  lemma BackOddsRise(rk: RunnerKey)
    ensures LadderMarks(rk, Back,
                        [PriceLevel(map["index" := Num(0.0), "odds" := Num(1.9)])],
                        [PriceLevel(map["index" := Num(0.0), "odds" := Num(2.0)])])
            == map[ChangeKey(rk, Back, 0) := Up]
  {
    var after := [PriceLevel(map["index" := Num(0.0), "odds" := Num(2.0)])];
    assert after[..0] == [];
  }

  // ---------------------------------------------------------------------
  // Merging runners

  /** `{...existingRunner, ...runner}`: what the incoming runner carries wins,
      what it omits keeps the stored value. */
  function OverlayRunner(prior: Option<Runner>, r: Runner): (o: Runner)
    ensures o.id == r.id && o.bdatb == r.bdatb && o.bdatl == r.bdatl
    ensures o.hc == if r.hc.Some? || prior.None? then r.hc else prior.value.hc
    ensures o.rest.Keys == r.rest.Keys + (if prior.Some? then prior.value.rest.Keys else {})
    ensures forall k :: k in r.rest ==> o.rest[k] == r.rest[k]
    ensures prior.Some? ==> forall k :: k in prior.value.rest && k !in r.rest ==> o.rest[k] == prior.value.rest[k]
  {
    if prior.None? then r
    else Runner(r.id, if r.hc.Some? then r.hc else prior.value.hc, r.bdatb, r.bdatl, prior.value.rest + r.rest)
  }

  /** The runner already stored under key `k`; only a market that existed before
      this update has any (a new market starts from an empty runner table). */
  function PriorRunner(existed: bool, runners: map<RunnerKey, Runner>, k: RunnerKey): Option<Runner> {
    if existed && k in runners then Some(runners[k]) else None
  }

  /** The markers one incoming runner produces against the runner stored before it. */
  function RunnerMarks(prior: Option<Runner>, r: Runner): map<ChangeKey, Direction> {
    if prior.None? then map[]
    else LadderMarks(KeyOf(r), Back, prior.value.bdatb, r.bdatb) + LadderMarks(KeyOf(r), Lay, prior.value.bdatl, r.bdatl)
  }

  /** The runner table and marker batch while the runners of one envelope are merged. */
  datatype Pass = Pass(runners: map<RunnerKey, Runner>, marks: map<ChangeKey, Direction>)

  /** One iteration of `update.rc.forEach`. The table it reads is the one being
      written, so a key repeated within one envelope sees its earlier entry. */
  function RunnerStep(existed: bool, p: Pass, r: Runner): (q: Pass)
    ensures q.runners.Keys == p.runners.Keys + {KeyOf(r)}
    ensures q.runners[KeyOf(r)] == OverlayRunner(PriorRunner(existed, p.runners, KeyOf(r)), r)
    ensures forall k :: k in p.runners && k != KeyOf(r) ==> q.runners[k] == p.runners[k]
    ensures p.marks.Keys <= q.marks.Keys
    ensures forall ck :: ck in p.marks && ck.runner != KeyOf(r) ==> q.marks[ck] == p.marks[ck]
    ensures forall ck :: ck in q.marks && ck !in p.marks ==> existed && ck.runner == KeyOf(r)
  {
    var k := KeyOf(r);
    var prior := PriorRunner(existed, p.runners, k);
    var marks :=
      if prior.None? then p.marks
      else p.marks + LadderMarks(k, Back, prior.value.bdatb, r.bdatb) + LadderMarks(k, Lay, prior.value.bdatl, r.bdatl);
    Pass(p.runners[k := OverlayRunner(prior, r)], marks)
  }

  /** The whole `forEach` over `rc`, in order. */
  function ApplyRunners(existed: bool, runners0: map<RunnerKey, Runner>, rc: seq<Runner>): Pass {
    if rc == [] then Pass(runners0, map[])
    else RunnerStep(existed, ApplyRunners(existed, runners0, rc[..|rc| - 1]), rc[|rc| - 1])
  }

  function RcKeys(rc: seq<Runner>): set<RunnerKey> {
    set i | 0 <= i < |rc| :: KeyOf(rc[i])
  }

  predicate DistinctKeys(rc: seq<Runner>) {
    forall i, j :: 0 <= i < j < |rc| ==> KeyOf(rc[i]) != KeyOf(rc[j])
  }

  lemma RcKeysPrefix(rc: seq<Runner>)
    requires rc != []
    ensures RcKeys(rc) == RcKeys(rc[..|rc| - 1]) + {KeyOf(rc[|rc| - 1])}
  {
    var init := rc[..|rc| - 1];
    forall k | k in RcKeys(rc) ensures k in RcKeys(init) + {KeyOf(rc[|rc| - 1])} {
      var i :| 0 <= i < |rc| && KeyOf(rc[i]) == k;
      if i < |rc| - 1 {
        assert init[i] == rc[i];
      }
    }
    forall k | k in RcKeys(init) ensures k in RcKeys(rc) {
      var i :| 0 <= i < |init| && KeyOf(init[i]) == k;
      assert rc[i] == init[i];
    }
  }

  /** Merging runners stores one entry per incoming key and keeps every runner the
      envelope does not mention exactly as it was. */
  lemma {:induction false} ApplyRunnersKeeps(existed: bool, runners0: map<RunnerKey, Runner>, rc: seq<Runner>)
    ensures ApplyRunners(existed, runners0, rc).runners.Keys == runners0.Keys + RcKeys(rc)
    ensures forall k :: k in runners0 && k !in RcKeys(rc) ==> ApplyRunners(existed, runners0, rc).runners[k] == runners0[k]
    ensures forall ck :: ck in ApplyRunners(existed, runners0, rc).marks ==> existed && ck.runner in RcKeys(rc)
  {
    if rc != [] {
      var init := rc[..|rc| - 1];
      var r := rc[|rc| - 1];
      ApplyRunnersKeeps(existed, runners0, init);
      RcKeysPrefix(rc);
    }
  }

  /** In a market seen for the first time nothing is overlaid: each key holds the
      last incoming runner with that key, exactly as it came in. */
  lemma {:induction false} FreshRunnersLastWins(runners0: map<RunnerKey, Runner>, rc: seq<Runner>, j: nat)
    requires j < |rc| && forall i :: j < i < |rc| ==> KeyOf(rc[i]) != KeyOf(rc[j])
    ensures KeyOf(rc[j]) in ApplyRunners(false, runners0, rc).runners
    ensures ApplyRunners(false, runners0, rc).runners[KeyOf(rc[j])] == rc[j]
  {
    var n := |rc| - 1;
    if j < n {
      assert KeyOf(rc[n]) != KeyOf(rc[j]) && rc[..n][j] == rc[j];
      assert forall i :: j < i < n ==> rc[..n][i] == rc[i];
      FreshRunnersLastWins(runners0, rc[..n], j);
    }
  }

  /** The merge of a two-entry list is two steps. */
  lemma ApplyTwo(existed: bool, runners0: map<RunnerKey, Runner>, r1: Runner, r2: Runner)
    ensures ApplyRunners(existed, runners0, [r1, r2])
            == RunnerStep(existed, RunnerStep(existed, Pass(runners0, map[]), r1), r2)
  {
    assert [r1, r2][..1] == [r1] && [r1, r2][1] == r2;
    assert ApplyRunners(existed, runners0, [r1, r2]) == RunnerStep(existed, ApplyRunners(existed, runners0, [r1]), r2);
    assert [r1][..0] == [] && [r1][0] == r1;
    assert ApplyRunners(existed, runners0, [r1]) == RunnerStep(existed, ApplyRunners(existed, runners0, []), r1);
  }

  /** A key repeated within one envelope of an existing market: the second entry
      is overlaid on the first one's result, and its ladders are diffed against
      the first entry's ladders, not against the stored runner's. */
  lemma RepeatedKeySeesEarlierEntry(runners0: map<RunnerKey, Runner>, r1: Runner, r2: Runner)
    requires KeyOf(r1) == KeyOf(r2)
    ensures var k := KeyOf(r1);
            var o1 := OverlayRunner(PriorRunner(true, runners0, k), r1);
            var q := ApplyRunners(true, runners0, [r1, r2]);
            && q.runners[k] == OverlayRunner(Some(o1), r2)
            && q.marks == RunnerMarks(PriorRunner(true, runners0, k), r1) + RunnerMarks(Some(o1), r2)
  {
    var k := KeyOf(r1);
    var prior := PriorRunner(true, runners0, k);
    var o1 := OverlayRunner(prior, r1);
    ApplyTwo(true, runners0, r1, r2);
    var p1 := RunnerStep(true, Pass(runners0, map[]), r1);
    var m1 := RunnerMarks(prior, r1);
    assert p1.marks == m1 by {
      if prior.Some? {
        var b1 := LadderMarks(k, Back, prior.value.bdatb, r1.bdatb);
        var l1 := LadderMarks(k, Lay, prior.value.bdatl, r1.bdatl);
        UnionEmpty(b1 + l1);
        UnionAssoc(map[], b1, l1);
      }
    }
    assert PriorRunner(true, p1.runners, k) == Some(o1);
    var b2 := LadderMarks(k, Back, o1.bdatb, r2.bdatb);
    var l2 := LadderMarks(k, Lay, o1.bdatl, r2.bdatl);
    assert RunnerStep(true, p1, r2).marks == m1 + b2 + l2;
    UnionAssoc(m1, b2, l2);
  }

  /** In a new market the same repeated key keeps only the second entry, with no
      markers. */
  lemma RepeatedKeyInNewMarket(runners0: map<RunnerKey, Runner>, r1: Runner, r2: Runner)
    requires KeyOf(r1) == KeyOf(r2)
    ensures var q := ApplyRunners(false, runners0, [r1, r2]);
            q.runners[KeyOf(r2)] == r2 && q.marks == map[]
  {
    ApplyTwo(false, runners0, r1, r2);
  }

  /** With one entry per key, each incoming runner is stored as the overlay of
      itself on the runner stored before, and the batch holds, for that key,
      exactly the markers its own ladders produce against that runner. */
  lemma {:induction false} ApplyRunnersStores(existed: bool, runners0: map<RunnerKey, Runner>, rc: seq<Runner>, j: nat)
    requires DistinctKeys(rc) && j < |rc|
    ensures var p := ApplyRunners(existed, runners0, rc);
            var k := KeyOf(rc[j]);
            var prior := PriorRunner(existed, runners0, k);
            && k in p.runners && p.runners[k] == OverlayRunner(prior, rc[j])
            && (forall ck: ChangeKey :: ck.runner == k ==>
                  (ck in p.marks <==> ck in RunnerMarks(prior, rc[j]))
                  && (ck in p.marks ==> p.marks[ck] == RunnerMarks(prior, rc[j])[ck]))
  {
    var n := |rc| - 1;
    var init := rc[..n];
    var r := rc[n];
    var k := KeyOf(rc[j]);
    var p := ApplyRunners(existed, runners0, init);
    ApplyRunnersKeeps(existed, runners0, init);
    if j == n {
      assert k !in RcKeys(init);
      assert PriorRunner(existed, p.runners, k) == PriorRunner(existed, runners0, k);
    } else {
      assert init[j] == rc[j];
      assert DistinctKeys(init) by {
        forall a, b | 0 <= a < b < |init| ensures KeyOf(init[a]) != KeyOf(init[b]) {
          assert init[a] == rc[a] && init[b] == rc[b];
        }
      }
      ApplyRunnersStores(existed, runners0, init, j);
      assert KeyOf(r) != k;
    }
  }

  // ---------------------------------------------------------------------
  // Merging a market

  /** The new state of one market and the marker batch of this update:
      `{...update, runners: new Map(), lastUpdated: now, ...existing, ...update}`
      followed by the runner merge. */
  function MergeMarket(prior: Option<MarketState>, upd: MarketData, now: int): (r: (MarketState, map<ChangeKey, Direction>))
    ensures r.0.fields.Keys == upd.fields.Keys + (if prior.Some? then prior.value.fields.Keys else {})
    ensures forall k :: k in upd.fields ==> r.0.fields[k] == upd.fields[k]
    ensures prior.Some? ==> forall k :: k in prior.value.fields && k !in upd.fields ==> r.0.fields[k] == prior.value.fields[k]
    ensures r.0.lastUpdated == if prior.Some? then prior.value.lastUpdated else now
  {
    var base := if prior.Some? then prior.value else MarketState(map[], map[], now);
    var p := ApplyRunners(prior.Some?, base.runners, upd.rc);
    (MarketState(base.fields + upd.fields, p.runners, base.lastUpdated), p.marks)
  }

  /** A first sighting starts from defaults: the envelope's own fields, only its
      own runners, each stored exactly as the last entry with its key sent it,
      no markers, and the current time. */
  lemma FirstSighting(upd: MarketData, now: int)
    ensures var (st, marks) := MergeMarket(None, upd, now);
            && st.fields == upd.fields && st.lastUpdated == now
            && st.runners.Keys == RcKeys(upd.rc) && marks == map[]
            && forall j :: 0 <= j < |upd.rc| && (forall i :: j < i < |upd.rc| ==> KeyOf(upd.rc[i]) != KeyOf(upd.rc[j])) ==>
                 st.runners[KeyOf(upd.rc[j])] == upd.rc[j]
  {
    ApplyRunnersKeeps(false, map[], upd.rc);
    forall j | 0 <= j < |upd.rc| && (forall i :: j < i < |upd.rc| ==> KeyOf(upd.rc[i]) != KeyOf(upd.rc[j]))
      ensures ApplyRunners(false, map[], upd.rc).runners[KeyOf(upd.rc[j])] == upd.rc[j]
    {
      FreshRunnersLastWins(map[], upd.rc, j);
    }
  }

  /** Runners of an existing market that the envelope does not mention stay as
      they were; those it mentions (once each) become the overlay of new on old,
      and each one's markers in the batch are exactly its own ladder diffs
      against the runner stored before. */
  lemma ExistingMarketRunners(prior: MarketState, upd: MarketData, now: int)
    ensures var st := MergeMarket(Some(prior), upd, now).0;
            && st.runners.Keys == prior.runners.Keys + RcKeys(upd.rc)
            && forall k :: k in prior.runners && k !in RcKeys(upd.rc) ==> st.runners[k] == prior.runners[k]
    ensures DistinctKeys(upd.rc) ==>
            forall j :: 0 <= j < |upd.rc| ==>
              var (st, marks) := MergeMarket(Some(prior), upd, now);
              var was := PriorRunner(true, prior.runners, KeyOf(upd.rc[j]));
              && st.runners[KeyOf(upd.rc[j])] == OverlayRunner(was, upd.rc[j])
              && forall ck: ChangeKey :: ck.runner == KeyOf(upd.rc[j]) ==>
                   (ck in marks <==> ck in RunnerMarks(was, upd.rc[j]))
                   && (ck in marks ==> marks[ck] == RunnerMarks(was, upd.rc[j])[ck])
  {
    ApplyRunnersKeeps(true, prior.runners, upd.rc);
    if DistinctKeys(upd.rc) {
      forall j | 0 <= j < |upd.rc| {
        ApplyRunnersStores(true, prior.runners, upd.rc, j);
      }
    }
  }

  // ---------------------------------------------------------------------
  // The tables

  /** One installed marker batch: its identity and its markers. */
  datatype MarkerBatch = MarkerBatch(serial: nat, marks: map<ChangeKey, Direction>)

  /** The market table, the marker table, and the next batch serial. */
  datatype Tables = Tables(markets: map<string, MarketState>, changes: map<string, MarkerBatch>, nextSerial: nat)

  /** Every stored market has a non-empty id; every installed batch is non-empty
      and was issued before the counter's current value. */
  predicate WellFormed(t: Tables) {
    && "" !in t.markets
    && forall id :: id in t.changes ==> t.changes[id].serial < t.nextSerial && t.changes[id].marks != map[]
  }

  function Lookup(markets: map<string, MarketState>, id: string): Option<MarketState> {
    if id in markets then Some(markets[id]) else None
  }

  /** processMarketUpdate: the new tables, and the serial of the batch whose
      expiry must be scheduled, if one was installed. */
  function Merge(t: Tables, upd: MarketData, now: int): (r: (Tables, Option<nat>))
    requires WellFormed(t)
    ensures WellFormed(r.0)
    ensures upd.id == "" ==> r == (t, None)
    ensures upd.id != "" ==>
              && r.0.markets.Keys == t.markets.Keys + {upd.id}
              && r.0.markets[upd.id] == MergeMarket(Lookup(t.markets, upd.id), upd, now).0
              && (forall id :: id in t.markets && id != upd.id ==> r.0.markets[id] == t.markets[id])
    ensures upd.id != "" ==>
              var marks := MergeMarket(Lookup(t.markets, upd.id), upd, now).1;
              if marks == map[] then r.0.changes == t.changes && r.0.nextSerial == t.nextSerial && r.1 == None
              else && r.0.changes == t.changes[upd.id := MarkerBatch(t.nextSerial, marks)]
                   && r.0.nextSerial == t.nextSerial + 1 && r.1 == Some(t.nextSerial)
  {
    if upd.id == "" then (t, None)
    else
      var (st, marks) := MergeMarket(Lookup(t.markets, upd.id), upd, now);
      if |marks| > 0
      then (Tables(t.markets[upd.id := st], t.changes[upd.id := MarkerBatch(t.nextSerial, marks)], t.nextSerial + 1),
            Some(t.nextSerial))
      else (Tables(t.markets[upd.id := st], t.changes, t.nextSerial), None)
  }

  /** The 600 ms timer of batch `serial`: it clears the market's markers only if
      that batch is still the current one. */
  function ExpireBatch(t: Tables, marketId: string, serial: nat): (r: Tables)
    requires WellFormed(t)
    ensures WellFormed(r)
    ensures r.markets == t.markets && r.nextSerial == t.nextSerial
    ensures r.changes == if marketId in t.changes && t.changes[marketId].serial == serial
                         then t.changes - {marketId} else t.changes
  {
    if marketId in t.changes && t.changes[marketId].serial == serial
    then t.(changes := t.changes - {marketId})
    else t
  }

  /** removeMarket: drops one market and nothing else (its markers stay). */
  function Drop(t: Tables, marketId: string): (r: Tables)
    requires WellFormed(t)
    ensures WellFormed(r)
    ensures r.markets.Keys == t.markets.Keys - {marketId}
    ensures forall id :: id in r.markets ==> r.markets[id] == t.markets[id]
    ensures r.changes == t.changes && r.nextSerial == t.nextSerial
  {
    t.(markets := t.markets - {marketId})
  }

  /** getMarketChanges: the current batch's markers, or none. */
  function ChangesFor(t: Tables, marketId: string): (m: map<ChangeKey, Direction>)
    ensures marketId !in t.changes ==> m == map[]
    ensures marketId in t.changes ==> m == t.changes[marketId].marks
  {
    if marketId in t.changes then t.changes[marketId].marks else map[]
  }

  /** A batch only ever replaces the previous one when it is non-empty; an update
      that changes no odds leaves the markers on display alone. */
  lemma EmptyBatchKeepsMarkers(t: Tables, upd: MarketData, now: int)
    requires WellFormed(t) && upd.id != ""
    requires MergeMarket(Lookup(t.markets, upd.id), upd, now).1 == map[]
    ensures ChangesFor(Merge(t, upd, now).0, upd.id) == ChangesFor(t, upd.id)
  {
  }

  /** The stale-timer guard: once an update has installed a new batch for a
      market, the timer of any batch issued earlier leaves it in place, while its
      own timer clears it. */
  lemma StaleTimerKeepsNewerBatch(t: Tables, upd: MarketData, now: int, older: nat)
    requires WellFormed(t) && older < t.nextSerial
    requires Merge(t, upd, now).1.Some?
    ensures var (t1, serial) := Merge(t, upd, now);
            && ExpireBatch(t1, upd.id, older) == t1
            && ChangesFor(ExpireBatch(t1, upd.id, serial.value), upd.id) == map[]
  {
  }

  /** After removeMarket an envelope for the same id is a first sighting: the
      removed state does not come back. */
  lemma RemoveThenUpdateIsFresh(t: Tables, upd: MarketData, now: int)
    requires WellFormed(t) && upd.id != ""
    ensures var t1 := Merge(Drop(t, upd.id), upd, now).0;
            && t1.markets[upd.id] == MergeMarket(None, upd, now).0
            && t1.markets[upd.id].lastUpdated == now
            && t1.markets[upd.id].fields == upd.fields
            && t1.markets[upd.id].runners.Keys == RcKeys(upd.rc)
  {
    FirstSighting(upd, now);
  }

  /** Two envelopes for one market, A then B: B's fields win and A's fields that B
      omits survive. */
  lemma SuccessiveOverlays(t: Tables, a: MarketData, b: MarketData, now1: int, now2: int, k: string)
    requires WellFormed(t) && a.id != "" && b.id == a.id
    requires k in a.fields
    ensures var t2 := Merge(Merge(t, a, now1).0, b, now2).0;
            t2.markets[a.id].fields[k] == if k in b.fields then b.fields[k] else a.fields[k]
  {
  }

  /** The `rc.forEach` loop of processMarketUpdate: overlays each runner on the
      one stored under its key, diffing the ladders when a prior runner exists. */
  method MergeRunners(existed: bool, runners0: map<RunnerKey, Runner>, rc: seq<Runner>)
    returns (runners: map<RunnerKey, Runner>, marks: map<ChangeKey, Direction>)
    ensures Pass(runners, marks) == ApplyRunners(existed, runners0, rc)
  {
    runners, marks := runners0, map[];
    for i := 0 to |rc|
      invariant Pass(runners, marks) == ApplyRunners(existed, runners0, rc[..i])
    {
      assert rc[..i + 1][..i] == rc[..i];
      var r := rc[i];
      var k := KeyOf(r);
      var prior := if existed && k in runners then Some(runners[k]) else None;
      if prior.Some? {
        marks := DiffLadder(k, Back, prior.value.bdatb, r.bdatb, marks);
        marks := DiffLadder(k, Lay, prior.value.bdatl, r.bdatl, marks);
      }
      runners := runners[k := OverlayRunner(prior, r)];
    }
    assert rc[..|rc|] == rc;
  }

  // ---------------------------------------------------------------------
  // The table object

  class MarketTable {
    var markets: map<string, MarketState>
    var changes: map<string, MarkerBatch>
    var nextSerial: nat

    function State(): Tables
      reads this
    {
      Tables(markets, changes, nextSerial)
    }

    ghost predicate Valid()
      reads this
    {
      WellFormed(State())
    }

    constructor ()
      ensures Valid() && State() == Tables(map[], map[], 0)
    {
      markets, changes, nextSerial := map[], map[], 0;
    }

    /** processMarketUpdate(update), with `now` for Date.now(). Returns the serial
        of the installed batch, whose `Expire` is due in 600 ms. */
    method ProcessMarketUpdate(upd: MarketData, now: int) returns (serial: Option<nat>)
      requires Valid()
      modifies this
      ensures Valid()
      ensures (State(), serial) == Merge(old(State()), upd, now)
    {
      if upd.id == "" {
        return None;
      }
      var id := upd.id;
      var existed := id in markets;
      var base := if existed then markets[id] else MarketState(map[], map[], now);
      var runners, marks := MergeRunners(existed, base.runners, upd.rc);
      assert MergeMarket(Lookup(markets, id), upd, now) == (MarketState(base.fields + upd.fields, runners, base.lastUpdated), marks);
      assert |marks| > 0 <==> marks != map[];
      if |marks| > 0 {
        changes := changes[id := MarkerBatch(nextSerial, marks)];
        serial := Some(nextSerial);
        nextSerial := nextSerial + 1;
      } else {
        serial := None;
      }
      markets := markets[id := MarketState(base.fields + upd.fields, runners, base.lastUpdated)];
    }

    /** The expiry timer of batch `serial` for `marketId`. */
    method Expire(marketId: string, serial: nat)
      requires Valid()
      modifies this`changes
      ensures Valid()
      ensures State() == ExpireBatch(old(State()), marketId, serial)
    {
      if marketId in changes && changes[marketId].serial == serial {
        changes := changes - {marketId};
      }
    }

    /** removeMarket(marketId). */
    method RemoveMarket(marketId: string)
      requires Valid()
      modifies this`markets
      ensures Valid()
      ensures State() == Drop(old(State()), marketId)
    {
      markets := markets - {marketId};
    }

    /** getMarketChanges(marketId). */
    method GetMarketChanges(marketId: string) returns (m: map<ChangeKey, Direction>)
      ensures m == ChangesFor(State(), marketId)
    {
      m := if marketId in changes then changes[marketId].marks else map[];
    }
  }
}
