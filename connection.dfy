/** The snapshot fetch and the streaming connection (src/hooks/useBettingData.ts:19-152)
    as an event-driven object. Each handler of the source is a method: the
    fetch's two outcomes, the socket's open, close, error and message events,
    and the firing of a pending timer. Timers are entries of `timers`; the
    environment fires one by index. Sockets keep their identity, so the object
    can tell the socket a handler belongs to from the one `wsRef` holds. The
    jitter, the clock and the outcome of socket construction are parameters. */
module Connection {
  import opened Json
  import opened Betting
  import opened Subscription
  import opened Decoder
  import opened Reconciler
  import opened Backoff

  datatype Status = Connecting | Connected | Disconnected

  /** A socket's readyState. */
  datatype ReadyState = SocketConnecting | SocketOpen | SocketClosing | SocketClosed

  datatype Socket = Socket(url: string, ready: ReadyState)

  /** Every socket created so far, the one `wsRef` holds, and the next socket id. */
  datatype Sockets = Sockets(all: map<nat, Socket>, current: Option<nat>, next: nat)

  /** What a pending timer does when it fires. */
  datatype Timer = RetryFetch | Reconnect(url: string) | ClearMarkers(marketId: string, serial: nat)

  datatype Pending = Pending(timer: Timer, delay: real)

  /** Why a fetch failed: a non-ok HTTP status, a thrown Error, or a thrown non-Error. */
  datatype FetchFailure = HttpStatus(code: nat) | Thrown(message: string) | NotAnError

  const ConnectFailedText: string := "Failed to connect to live updates"
  const SocketErrorText: string := "WebSocket connection error"
  const FetchFailedText: string := "Failed to fetch matches"

  const HttpErrorPrefix: string := "HTTP error! status: "

  /** A number interpolated into a template literal: its decimal digits. */
  function DigitsOf(n: nat): (t: string)
    ensures |t| >= 1 && forall i :: 0 <= i < |t| ==> '0' <= t[i] <= '9'
    decreases n
  {
    if n < 10 then [HexDigit(n)] else DigitsOf(n / 10) + [HexDigit(n % 10)]
  }

  /** The value of a non-empty string of decimal digits, or None. */
  function DecimalValue(t: string): Option<nat> {
    if t == [] || !('0' <= t[|t| - 1] <= '9') then None
    else
      var d := t[|t| - 1] as int - '0' as int;
      if |t| == 1 then Some(d)
      else match DecimalValue(t[..|t| - 1])
        case None => None
        case Some(v) => Some(10 * v + d)
  }

  /** The digits of a status code read back as that code: the message names
      the status exactly. */
  lemma {:induction false} DigitsRoundTrip(n: nat)
    ensures DecimalValue(DigitsOf(n)) == Some(n)
  {
    if n >= 10 {
      DigitsRoundTrip(n / 10);
      var t := DigitsOf(n);
      assert t[..|t| - 1] == DigitsOf(n / 10);
    }
  }

  /** The error text fetchMatches shows for a failure: `err.message` of the
      Error thrown for a non-ok status or by the fetch, and a fixed text for a
      thrown non-Error. */
  function FailureText(f: FetchFailure): (t: string)
    ensures f.HttpStatus? ==>
              && |t| > |HttpErrorPrefix| && t[..|HttpErrorPrefix|] == HttpErrorPrefix
              && DecimalValue(t[|HttpErrorPrefix|..]) == Some(f.code)
    ensures f.Thrown? ==> t == f.message
    ensures f.NotAnError? ==> t == FetchFailedText
  {
    match f
    case HttpStatus(code) =>
      var t := HttpErrorPrefix + DigitsOf(code);
      assert t[|HttpErrorPrefix|..] == DigitsOf(code);
      DigitsRoundTrip(code);
      t
    case Thrown(message) => message
    case NotAnError => FetchFailedText
  }

  predicate SocketsValid(s: Sockets) {
    && (s.current.Some? ==> s.current.value in s.all)
    && forall id :: id in s.all ==> id < s.next
  }

  /** `if (wsRef.current?.readyState === WebSocket.OPEN) wsRef.current.close()`. */
  function CloseCurrentIfOpen(s: Sockets): (r: Sockets)
    requires SocketsValid(s)
    ensures SocketsValid(r) && r.current == s.current && r.next == s.next && r.all.Keys == s.all.Keys
    ensures forall id :: id in s.all && Some(id) != s.current ==> r.all[id] == s.all[id]
    ensures s.current.Some? ==>
              r.all[s.current.value] ==
                if s.all[s.current.value].ready == SocketOpen
                then s.all[s.current.value].(ready := SocketClosing) else s.all[s.current.value]
  {
    if s.current.Some? && s.all[s.current.value].ready == SocketOpen
    then s.(all := s.all[s.current.value := s.all[s.current.value].(ready := SocketClosing)])
    else s
  }

  /** `wsRef.current = new WebSocket(url)`. */
  function AddSocket(s: Sockets, url: string): (r: Sockets)
    requires SocketsValid(s)
    ensures SocketsValid(r) && r.current == Some(s.next) && s.next !in s.all
    ensures r.all == s.all[s.next := Socket(url, SocketConnecting)]
  {
    Sockets(s.all[s.next := Socket(url, SocketConnecting)], Some(s.next), s.next + 1)
  }

  // ---------------------------------------------------------------------
  // One frame, envelope by envelope

  /** The envelope as processMarketUpdate takes it. An array element has no id
      and is ignored; so is an object outside the `MarketData` shape. */
  function Envelope(j: Json): Option<MarketData> {
    if j.Obj? then ReadMarketData(Fields(j.members)) else None
  }

  /** The tables after a frame's envelopes, and the marker-expiry timers the
      frame schedules, in order. */
  datatype FrameResult = FrameResult(tables: Tables, scheduled: seq<Pending>)

  /** The envelopes of a frame as processMarketUpdate takes them, in order. */
  function Updates(envs: seq<Json>): (r: seq<Option<MarketData>>)
    ensures |r| == |envs| && forall i :: 0 <= i < |envs| ==> r[i] == Envelope(envs[i])
  {
    seq(|envs|, i requires 0 <= i < |envs| => Envelope(envs[i]))
  }

  /** processMarketUpdate on one envelope: the new tables, and the 600 ms
      timer of the marker batch it installs, if any. */
  function Absorb(t: Tables, u: Option<MarketData>, now: int): (r: (Tables, seq<Pending>))
    requires WellFormed(t)
    ensures WellFormed(r.0) && r.0.nextSerial == t.nextSerial + |r.1| && |r.1| <= 1
    ensures u.None? ==> r == (t, [])
    ensures |r.1| == 1 ==> r.1[0] == Pending(ClearMarkers(u.value.id, t.nextSerial), MarkerLifetime as real)
    ensures |r.1| == 1 ==> u.value.id in r.0.changes && r.0.changes[u.value.id].serial == t.nextSerial
    ensures |r.1| == 0 ==> r.0.changes == t.changes
  {
    match u
    case None => (t, [])
    case Some(upd) =>
      var (t1, serial) := Merge(t, upd, now);
      (t1, if serial.Some? then [Pending(ClearMarkers(upd.id, serial.value), MarkerLifetime as real)] else [])
  }

  /** `parsed.forEach(processMarketUpdate)`, in frame order. */
  function ApplyUpdates(t: Tables, us: seq<Option<MarketData>>, now: int): (r: FrameResult)
    requires WellFormed(t)
    ensures WellFormed(r.tables)
    ensures r.tables.nextSerial == t.nextSerial + |r.scheduled|
    ensures forall k :: 0 <= k < |r.scheduled| ==>
              && r.scheduled[k].timer.ClearMarkers? && r.scheduled[k].timer.serial == t.nextSerial + k
              && r.scheduled[k].delay == MarkerLifetime as real
  {
    if us == [] then FrameResult(t, [])
    else
      var prev := ApplyUpdates(t, us[..|us| - 1], now);
      var step := Absorb(prev.tables, us[|us| - 1], now);
      FrameResult(step.0, prev.scheduled + step.1)
  }

  lemma ApplyUpdatesSnoc(t: Tables, us: seq<Option<MarketData>>, i: nat, now: int)
    requires WellFormed(t) && i < |us|
    ensures var prev := ApplyUpdates(t, us[..i], now);
            var step := Absorb(prev.tables, us[i], now);
            ApplyUpdates(t, us[..i + 1], now) == FrameResult(step.0, prev.scheduled + step.1)
  {
    assert us[..i + 1][..i] == us[..i];
  }

  /** Appending a frame's timers after earlier ones regroups freely. */
  lemma AppendAssociates(a: seq<Pending>, b: seq<Pending>, c: seq<Pending>)
    ensures a + b + c == a + (b + c)
  {
  }

  /** Every batch in `r` newer than those of `t` has its clear timer in `r`. */
  ghost predicate SchedulesNewBatches(t: Tables, r: FrameResult) {
    forall id :: id in r.tables.changes && r.tables.changes[id].serial >= t.nextSerial ==>
      Pending(ClearMarkers(id, r.tables.changes[id].serial), MarkerLifetime as real) in r.scheduled
  }

  /** Every marker batch a frame installs has its own 600 ms clear timer among
      those the frame schedules, so no marker is left without one. */
  lemma {:induction false} NewBatchesAreScheduled(t: Tables, us: seq<Option<MarketData>>, now: int)
    requires WellFormed(t)
    ensures SchedulesNewBatches(t, ApplyUpdates(t, us, now))
  {
    if us != [] {
      var prev := ApplyUpdates(t, us[..|us| - 1], now);
      NewBatchesAreScheduled(t, us[..|us| - 1], now);
      var u := us[|us| - 1];
      var step := Absorb(prev.tables, u, now);
      var r := FrameResult(step.0, prev.scheduled + step.1);
      assert ApplyUpdates(t, us, now) == r;
      forall id | id in r.tables.changes && r.tables.changes[id].serial >= t.nextSerial
        ensures Pending(ClearMarkers(id, r.tables.changes[id].serial), MarkerLifetime as real) in r.scheduled
      {
        var p := Pending(ClearMarkers(id, r.tables.changes[id].serial), MarkerLifetime as real);
        if id in prev.tables.changes && step.0.changes[id] == prev.tables.changes[id] {
          assert p in prev.scheduled;
        } else {
          var merged := Merge(prev.tables, u.value, now);
          assert merged.0 == step.0;
          assert merged.1 == Some(prev.tables.nextSerial) && id == u.value.id;
          assert step.1 == [p];
        }
      }
    }
  }

  /** A frame that does not parse changes no market and no marker. */
  lemma UnparsableFrameChangesNothing(t: Tables, raw: string, parse: string -> Option<Json>, now: int)
    requires WellFormed(t) && parse(StripHeartbeat(raw)).None?
    ensures ApplyUpdates(t, Updates(Decode(raw, parse).envelopes), now) == FrameResult(t, [])
  {
  }

  // ---------------------------------------------------------------------
  // The live feed object

  class LiveFeed {
    const table: MarketTable
    var matches: seq<InPlayMatch>
    var loading: bool
    var error: Option<string>
    var status: Status
    /** subscriptionRef */
    var subscription: seq<SubscriptionPayload>
    /** reconnectAttemptsRef, shared by the fetch retry and the reconnect */
    var attempts: nat
    var sockets: Sockets
    var timers: seq<Pending>
    /** Every frame sent: the socket it went out on and its text. */
    var sent: seq<(nat, string)>

    ghost predicate Valid()
      reads this, table
    {
      table.Valid() && SocketsValid(sockets)
    }

    constructor ()
      ensures Valid() && fresh(table) && table.State() == Tables(map[], map[], 0)
      ensures matches == [] && loading && error == None && status == Disconnected
      ensures subscription == [] && attempts == 0 && sockets == Sockets(map[], None, 0)
      ensures timers == [] && sent == []
    {
      table := new MarketTable();
      matches, loading, error, status := [], true, None, Disconnected;
      subscription, attempts, sockets := [], 0, Sockets(map[], None, 0);
      timers, sent := [], [];
    }

    /** fetchMatches as it starts (on mount, on refetch, on a retry): the error
        is cleared and the request goes out. */
    method FetchMatches()
      modifies this`error
      ensures error == None
    {
      error := None;
    }

    /** connectWebSocket(url). `constructionFails` says whether `new WebSocket(url)`
        throws; then no socket is added and no reconnect is scheduled. */
    method ConnectWebSocket(url: string, constructionFails: bool)
      requires Valid()
      modifies this`sockets, this`status, this`error
      ensures Valid()
      ensures sockets == if constructionFails then CloseCurrentIfOpen(old(sockets))
                         else AddSocket(CloseCurrentIfOpen(old(sockets)), url)
      ensures status == if constructionFails then Disconnected else Connecting
      ensures error == if constructionFails then Some(ConnectFailedText) else old(error)
    {
      sockets := CloseCurrentIfOpen(sockets);
      status := Connecting;
      if constructionFails {
        error := Some(ConnectFailedText);
        status := Disconnected;
      } else {
        sockets := AddSocket(sockets, url);
      }
    }

    /** The fetch resolved with an ok response whose body is `data`. */
    method FetchSucceeded(data: RestResponse, constructionFails: bool)
      requires Valid()
      modifies this`matches, this`subscription, this`loading, this`sockets, this`status, this`error
      ensures Valid()
      ensures matches == data.inplayMatches && subscription == Flatten(data.inplayMatches) && !loading
      ensures |data.wssEndpoints| == 0 ==>
                sockets == old(sockets) && status == old(status) && error == old(error)
      ensures |data.wssEndpoints| > 0 ==>
                && sockets == (if constructionFails then CloseCurrentIfOpen(old(sockets))
                               else AddSocket(CloseCurrentIfOpen(old(sockets)), data.wssEndpoints[0].url))
                && status == (if constructionFails then Disconnected else Connecting)
                && error == (if constructionFails then Some(ConnectFailedText) else old(error))
    {
      matches := data.inplayMatches;
      subscription := BuildSubscription(data.inplayMatches);
      if |data.wssEndpoints| > 0 {
        ConnectWebSocket(data.wssEndpoints[0].url, constructionFails);
      }
      loading := false;
    }

    /** The fetch failed: the error is shown and a retry of the whole fetch is
        scheduled after the base delay for the current attempt count. */
    method FetchFailed(failure: FetchFailure)
      modifies this`error, this`loading, this`timers
      ensures error == Some(FailureText(failure)) && !loading
      ensures timers == old(timers) + [Pending(RetryFetch, BaseDelay(attempts) as real)]
    {
      error := Some(FailureText(failure));
      loading := false;
      timers := timers + [Pending(RetryFetch, BaseDelay(attempts) as real)];
    }

    /** ws.onopen: connected, the attempt counter back to zero, and the
        subscription sent on this socket if there is any. */
    method OnOpen(s: nat)
      requires Valid() && s in sockets.all && sockets.all[s].ready == SocketConnecting
      modifies this`status, this`attempts, this`sockets, this`sent
      ensures Valid()
      ensures status == Connected && attempts == 0
      ensures sockets == old(sockets).(all := old(sockets).all[s := old(sockets).all[s].(ready := SocketOpen)])
      ensures sent == if |subscription| > 0 then old(sent) + [(s, SubscriptionMessage(subscription))] else old(sent)
    {
      sockets := sockets.(all := sockets.all[s := sockets.all[s].(ready := SocketOpen)]);
      status := Connected;
      attempts := 0;
      if |subscription| > 0 {
        sent := sent + [(s, SubscriptionMessage(subscription))];
      }
    }

    /** ws.onclose: disconnected, and a reconnect to the same URL scheduled after
        the base delay plus jitter, where `random` is Math.random(). */
    method OnClose(s: nat, random: real)
      requires Valid() && s in sockets.all && sockets.all[s].ready != SocketClosed
      requires 0.0 <= random < 1.0
      modifies this`status, this`sockets, this`timers
      ensures Valid()
      ensures status == Disconnected
      ensures sockets == old(sockets).(all := old(sockets).all[s := old(sockets).all[s].(ready := SocketClosed)])
      ensures timers == old(timers) + [Pending(Reconnect(old(sockets).all[s].url), ReconnectDelay(attempts, random))]
    {
      var url := sockets.all[s].url;
      sockets := sockets.(all := sockets.all[s := sockets.all[s].(ready := SocketClosed)]);
      status := Disconnected;
      timers := timers + [Pending(Reconnect(url), ReconnectDelay(attempts, random))];
    }

    /** ws.onclose with the guard the handler evidently needs: a socket that
        `wsRef` no longer holds only records its own closing, so replacing a
        socket cannot mark the feed disconnected or schedule a reconnect. */
    method OnCloseCurrent(s: nat, random: real)
      requires Valid() && s in sockets.all && sockets.all[s].ready != SocketClosed
      requires 0.0 <= random < 1.0
      modifies this`status, this`sockets, this`timers
      ensures Valid()
      ensures sockets == old(sockets).(all := old(sockets).all[s := old(sockets).all[s].(ready := SocketClosed)])
      ensures old(sockets.current) == Some(s) ==>
                && status == Disconnected
                && timers == old(timers) + [Pending(Reconnect(old(sockets).all[s].url), ReconnectDelay(attempts, random))]
      ensures old(sockets.current) != Some(s) ==> status == old(status) && timers == old(timers)
    {
      var url := sockets.all[s].url;
      sockets := sockets.(all := sockets.all[s := sockets.all[s].(ready := SocketClosed)]);
      if sockets.current == Some(s) {
        status := Disconnected;
        timers := timers + [Pending(Reconnect(url), ReconnectDelay(attempts, random))];
      }
    }

    /** ws.onerror: only the error text changes. */
    method OnError(s: nat)
      requires s in sockets.all
      modifies this`error
      ensures error == Some(SocketErrorText)
    {
      error := Some(SocketErrorText);
    }

    /** processMarketUpdate on one read envelope, and the expiry timer for
        the marker batch it installs, if any. */
    method Receive(u: Option<MarketData>, now: int)
      requires table.Valid()
      modifies table, this`timers
      ensures table.Valid()
      ensures var r := Absorb(old(table.State()), u, now);
              table.State() == r.0 && timers == old(timers) + r.1
    {
      if u.Some? {
        var serial := table.ProcessMarketUpdate(u.value, now);
        if serial.Some? {
          timers := timers + [Pending(ClearMarkers(u.value.id, serial.value), MarkerLifetime as real)];
        }
      }
    }

    /** The `forEach` over a frame's envelopes. */
    method ReceiveAll(us: seq<Option<MarketData>>, now: int)
      requires table.Valid()
      modifies table, this`timers
      ensures table.Valid()
      ensures var r := ApplyUpdates(old(table.State()), us, now);
              table.State() == r.tables && timers == old(timers) + r.scheduled
    {
      ghost var t0 := table.State();
      for i := 0 to |us|
        invariant table.Valid() && WellFormed(t0)
        invariant var r := ApplyUpdates(t0, us[..i], now);
                  table.State() == r.tables && timers == old(timers) + r.scheduled
      {
        ghost var prev := ApplyUpdates(t0, us[..i], now);
        ghost var step := Absorb(prev.tables, us[i], now);
        ApplyUpdatesSnoc(t0, us, i, now);
        Receive(us[i], now);
        AppendAssociates(old(timers), prev.scheduled, step.1);
      }
      assert us[..|us|] == us;
    }

    /** ws.onmessage with a text frame: decode it, merge its envelopes in order,
        and schedule the expiry of every marker batch installed. */
    method OnMessage(s: nat, raw: string, parse: string -> Option<Json>, now: int)
      requires Valid() && s in sockets.all
      requires sockets.all[s].ready == SocketOpen
      modifies table, this`timers
      ensures Valid()
      ensures var r := ApplyUpdates(old(table.State()), Updates(Decode(raw, parse).envelopes), now);
              table.State() == r.tables && timers == old(timers) + r.scheduled
    {
      ReceiveAll(Updates(Decode(raw, parse).envelopes), now);
    }

    /** Pending timer `i` fires and leaves the pending list. A fetch retry and a
        reconnect first count one more attempt; a marker timer expires its batch
        (which it leaves alone if a newer batch replaced it). */
    method OnTimer(i: nat, constructionFails: bool)
      requires Valid() && i < |timers|
      modifies table, this`timers, this`attempts, this`error, this`sockets, this`status
      ensures Valid()
      ensures timers == old(timers[..i] + timers[i + 1..])
      ensures old(timers[i].timer).RetryFetch? ==>
                && attempts == old(attempts) + 1 && error == None
                && sockets == old(sockets) && status == old(status) && table.State() == old(table.State())
      ensures old(timers[i].timer).Reconnect? ==>
                && attempts == old(attempts) + 1 && table.State() == old(table.State())
                && sockets == (if constructionFails then CloseCurrentIfOpen(old(sockets))
                               else AddSocket(CloseCurrentIfOpen(old(sockets)), old(timers[i].timer).url))
                && status == (if constructionFails then Disconnected else Connecting)
                && error == (if constructionFails then Some(ConnectFailedText) else old(error))
      ensures old(timers[i].timer).ClearMarkers? ==>
                && attempts == old(attempts) && error == old(error)
                && sockets == old(sockets) && status == old(status)
                && table.State() == ExpireBatch(old(table.State()), old(timers[i].timer).marketId,
                                                old(timers[i].timer).serial)
    {
      var fired := timers[i].timer;
      timers := timers[..i] + timers[i + 1..];
      match fired
      case RetryFetch =>
        attempts := attempts + 1;
        FetchMatches();
      case Reconnect(url) =>
        attempts := attempts + 1;
        ConnectWebSocket(url, constructionFails);
      case ClearMarkers(marketId, serial) =>
        table.Expire(marketId, serial);
    }
  }

  /** After a refetch while connected, socket 0 was closed by connectWebSocket
      and socket 1 is open. Socket 0's close event still reaches its handler: the
      feed reads as disconnected and schedules a reconnect, and when that timer
      fires, connectWebSocket closes the healthy socket 1 and opens a third. */
  method StaleCloseReconnects(feed: LiveFeed, url: string, random: real)
    requires feed.Valid() && feed.timers == [] && 0.0 <= random < 1.0
    requires feed.sockets == Sockets(map[0 := Socket(url, SocketClosing), 1 := Socket(url, SocketOpen)], Some(1), 2)
    modifies feed, feed.table
    ensures feed.Valid() && feed.status == Connecting && feed.timers == []
    ensures feed.sockets == Sockets(map[0 := Socket(url, SocketClosed), 1 := Socket(url, SocketClosing),
                                        2 := Socket(url, SocketConnecting)], Some(2), 3)
  {
    feed.OnClose(0, random);
    assert feed.status == Disconnected && feed.sockets.all[1].ready == SocketOpen;
    feed.OnTimer(0, false);
  }

  /** The same situation with the guarded handler: the stale close leaves the
      healthy connection alone and schedules nothing. */
  method StaleCloseIgnored(feed: LiveFeed, url: string, random: real)
    requires feed.Valid() && feed.timers == [] && feed.status == Connected && 0.0 <= random < 1.0
    requires feed.sockets == Sockets(map[0 := Socket(url, SocketClosing), 1 := Socket(url, SocketOpen)], Some(1), 2)
    modifies feed
    ensures feed.Valid() && feed.status == Connected && feed.timers == []
    ensures feed.sockets == Sockets(map[0 := Socket(url, SocketClosed), 1 := Socket(url, SocketOpen)], Some(1), 2)
  {
    feed.OnCloseCurrent(0, random);
  }
}
