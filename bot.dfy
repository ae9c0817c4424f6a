/** The single-symbol bot: loading the position, placing the initial stop
    at start-up, and the tick handlers that move the stop.

    The source keeps the position in a module-level dictionary and the tick
    handlers as closures inside `run_bot`; here the dictionary is a
    `BotState` object and the closures are the methods of `Session`, whose
    constant fields are the values the closures capture. */
module Bot {
  import opened Common
  import opened Settings
  import opened State
  import opened Gateway
  import opened MathHelpers
  import opened TrailingStop

  // ---------------------------------------------------------------------
  // load_position
  // ---------------------------------------------------------------------

  datatype Held = Held(buyPrice: real, positionQty: int)

  /** An entry for the configured symbol with a positive quantity. */
  predicate Matches(row: Row, symbol: string) {
    row.tradingsymbol == Some(symbol) && row.quantity > 0
  }

  /** `positions.get(sec, [])`. */
  function Book(books: Books, sec: string): seq<Row> {
    if sec in books then books[sec] else []
  }

  /** The entries in the order they are scanned: "day" first, then "net". */
  function ScanOrder(books: Books): seq<Row> {
    Book(books, "day") + Book(books, "net")
  }

  /** The index of the first matching entry, or `|rows|` when none matches. */
  function FirstMatchIndex(rows: seq<Row>, symbol: string): (k: nat)
    ensures k <= |rows|
    ensures k < |rows| ==> Matches(rows[k], symbol)
    ensures forall j :: 0 <= j < k ==> !Matches(rows[j], symbol)
  {
    if rows == [] then 0
    else if Matches(rows[0], symbol) then 0
    else 1 + FirstMatchIndex(rows[1..], symbol)
  }

  function FirstMatch(rows: seq<Row>, symbol: string): Option<Row> {
    var k := FirstMatchIndex(rows, symbol);
    if k < |rows| then Some(rows[k]) else None
  }

  /** No entry matches exactly when the first-match search finds nothing,
      and a found entry is the earliest match. */
  lemma FirstMatchIsFirst(rows: seq<Row>, symbol: string)
    ensures FirstMatch(rows, symbol).None? <==> forall j :: 0 <= j < |rows| ==> !Matches(rows[j], symbol)
    ensures FirstMatch(rows, symbol).Some? ==>
              exists k :: 0 <= k < |rows| && rows[k] == FirstMatch(rows, symbol).value && Matches(rows[k], symbol) &&
                          forall j :: 0 <= j < k ==> !Matches(rows[j], symbol)
  {
    var k := FirstMatchIndex(rows, symbol);
    if k < |rows| {
      assert rows[k] == FirstMatch(rows, symbol).value;
    }
  }

  /** The nested loop of `load_position` over the "day" and "net" books. */
  method ScanBooks(books: Books, symbol: string) returns (found: Option<Row>)
    ensures found == FirstMatch(ScanOrder(books), symbol)
  {
    var sections := ["day", "net"];
    ghost var scanned: seq<Row> := [];
    var s := 0;
    while s < |sections|
      invariant 0 <= s <= 2
      invariant scanned == if s == 0 then [] else if s == 1 then Book(books, "day") else ScanOrder(books)
      invariant forall j :: 0 <= j < |scanned| ==> !Matches(scanned[j], symbol)
    {
      var rows := Book(books, sections[s]);
      var i := 0;
      while i < |rows|
        invariant 0 <= i <= |rows|
        invariant forall j :: 0 <= j < |scanned| + i ==> !Matches((scanned + rows)[j], symbol)
      {
        var p := rows[i];
        if p.tradingsymbol == Some(symbol) && p.quantity > 0 {
          ghost var all := ScanOrder(books);
          assert all == scanned + rows + (if s == 0 then Book(books, "net") else []);
          assert all[|scanned| + i] == p;
          assert forall j :: 0 <= j < |scanned| + i ==> all[j] == (scanned + rows)[j];
          return Some(p);
        }
        i := i + 1;
      }
      assert scanned + rows == if s == 0 then Book(books, "day") else ScanOrder(books);
      scanned := scanned + rows;
      s := s + 1;
    }
    return None;
  }

  /** `load_position`: the stored position when both fields are truthy,
      otherwise the first matching broker entry (stored and saved), or
      nothing with the state untouched. `delta` is the broker calls made and
      `w` the snapshots saved. */
  ghost predicate LoadStep(symbol: string, s: Snapshot, delta: seq<Call>, s': Snapshot, w: seq<Snapshot>,
                           r: Result<Option<Held>>)
    ensures LoadStep(symbol, s, delta, s', w, r) ==>
              forall i :: 0 <= i < |delta| ==> delta[i].Positions?
  {
    if RealTruthy(s.buyPrice) && IntTruthy(s.positionQty) then
      delta == [] && s' == s && w == [] && r == Ok(Some(Held(s.buyPrice.value, s.positionQty.value)))
    else
      |delta| == 1 && delta[0].Positions? &&
      match delta[0].books
      case None => s' == s && w == [] && r == Err(GatewayFailure)
      case Some(books) =>
        match FirstMatch(ScanOrder(books), symbol)
        case Some(row) =>
          s' == s.(buyPrice := Some(row.averagePrice), positionQty := Some(row.quantity)) && w == [s'] &&
          r == Ok(Some(Held(row.averagePrice, row.quantity)))
        case None => s' == s && w == [] && r == Ok(None)
  }

  /** A loaded position always has a non-zero quantity and is what the
      state holds afterwards; loading never touches the stop fields or the
      first-target flag, and it calls the broker at most once. */
  lemma LoadOutcome(symbol: string, s: Snapshot, delta: seq<Call>, s': Snapshot, w: seq<Snapshot>,
                    r: Result<Option<Held>>)
    requires LoadStep(symbol, s, delta, s', w, r)
    ensures |delta| <= 1 && |w| <= 1
    ensures r.Ok? && r.value.Some? ==>
              r.value.value.positionQty != 0 &&
              s'.buyPrice == Some(r.value.value.buyPrice) && s'.positionQty == Some(r.value.value.positionQty)
    ensures s'.slOrderId == s.slOrderId && s'.slTrigger == s.slTrigger && s'.modCount == s.modCount &&
            s'.lastSlUpdateTime == s.lastSlUpdateTime && s'.firstTargetHit == s.firstTargetHit
    ensures r.Err? || (r.Ok? && r.value.None?) ==> s' == s && w == []
  {
  }

  method LoadPosition(symbol: string, state: BotState, kite: Broker, store: StateFile)
    returns (r: Result<Option<Held>>)
    modifies state, kite, store
    ensures old(kite.calls) <= kite.calls && old(store.writes) <= store.writes
    ensures LoadStep(symbol, old(state.Snap()), kite.calls[|old(kite.calls)|..], state.Snap(),
                     store.writes[|old(store.writes)|..], r)
  {
    if RealTruthy(state.buyPrice) && IntTruthy(state.positionQty) {
      return Ok(Some(Held(state.buyPrice.value, state.positionQty.value)));
    }
    var positions := kite.GetPositions();
    if positions.Err? {
      return Err(GatewayFailure);
    }
    var found := ScanBooks(positions.value, symbol);
    if found.None? {
      return Ok(None);
    }
    var p := found.value;
    state.buyPrice := Some(p.averagePrice);
    state.positionQty := Some(p.quantity);
    store.Save(state);
    return Ok(Some(Held(p.averagePrice, p.quantity)));
  }

  // ---------------------------------------------------------------------
  // Tick handling (the closures of run_bot)
  // ---------------------------------------------------------------------

  /** A tick as delivered by the ticker; every field may be absent. */
  datatype Tick = Tick(instrumentToken: Option<int>, lastPrice: Option<real>, ltp: Option<real>,
                       lastTradedPrice: Option<real>)

  /** `last_price or ltp or last_traded_price`, then `if ltp:`: the first
      truthy price field, if any. */
  function TickPrice(t: Tick): (p: Option<real>)
    ensures p.Some? ==> p.value != 0.0 && (p == t.lastPrice || p == t.ltp || p == t.lastTradedPrice)
    ensures p.None? <==> !RealTruthy(t.lastPrice) && !RealTruthy(t.ltp) && !RealTruthy(t.lastTradedPrice)
    ensures RealTruthy(t.lastPrice) ==> p == t.lastPrice
    ensures !RealTruthy(t.lastPrice) && RealTruthy(t.ltp) ==> p == t.ltp
  {
    if RealTruthy(t.lastPrice) then t.lastPrice
    else if RealTruthy(t.ltp) then t.ltp
    else if RealTruthy(t.lastTradedPrice) then t.lastTradedPrice
    else None
  }

  /** The prices `on_ticks` hands to `handle_price` for the first `n` ticks
      of a batch, in order. */
  function Forwarded(ticks: seq<Tick>, n: nat, token: Option<int>): (prices: seq<real>)
    requires n <= |ticks|
    ensures |prices| <= n
    ensures forall i :: 0 <= i < |prices| ==> prices[i] != 0.0
  {
    if n == 0 then []
    else
      var t := ticks[n - 1];
      Forwarded(ticks, n - 1, token) + (if t.instrumentToken == token && TickPrice(t).Some? then [TickPrice(t).value] else [])
  }

  /** What is forwarded for the first `n` ticks depends on those ticks only. */
  lemma {:induction false} ForwardedAgree(a: seq<Tick>, b: seq<Tick>, n: nat, token: Option<int>)
    requires n <= |a| && n <= |b|
    requires forall i :: 0 <= i < n ==> a[i] == b[i]
    ensures Forwarded(a, n, token) == Forwarded(b, n, token)
  {
    if n > 0 {
      ForwardedAgree(a, b, n - 1, token);
    }
  }

  /** Forwarding a longer stretch of a batch extends what is forwarded for a
      shorter one. */
  lemma {:induction false} ForwardedPrefix(ticks: seq<Tick>, m: nat, n: nat, token: Option<int>)
    requires m <= n <= |ticks|
    ensures Forwarded(ticks, m, token) <= Forwarded(ticks, n, token)
  {
    if m < n {
      ForwardedPrefix(ticks, m, n - 1, token);
    }
  }

  /** Two batches back to back are forwarded one after the other. */
  lemma {:induction false} ForwardedConcat(a: seq<Tick>, b: seq<Tick>, n: nat, token: Option<int>)
    requires n <= |b|
    ensures Forwarded(a + b, |a| + n, token) == Forwarded(a, |a|, token) + Forwarded(b, n, token)
  {
    if n == 0 {
      ForwardedAgree(a + b, a, |a|, token);
    } else {
      ForwardedConcat(a, b, n - 1, token);
      var t := b[n - 1];
      assert (a + b)[|a| + n - 1] == t;
      var x := if t.instrumentToken == token && TickPrice(t).Some? then [TickPrice(t).value] else [];
      AppendAssoc(Forwarded(a, |a|, token), Forwarded(b, n - 1, token), x);
    }
  }

  /** Ticks of other tokens forward nothing. */
  lemma {:induction false} ForwardedSound(ticks: seq<Tick>, n: nat, token: Option<int>)
    requires n <= |ticks|
    ensures (forall i :: 0 <= i < n ==> ticks[i].instrumentToken != token) ==> Forwarded(ticks, n, token) == []
  {
    if n > 0 {
      ForwardedSound(ticks, n - 1, token);
    }
  }

  /** A price from the first truthy field, ticks of the subscribed token only. */
  lemma ForwardedOne(t: Tick, token: Option<int>)
    ensures Forwarded([t], 1, token) ==
      if t.instrumentToken != token then []
      else if RealTruthy(t.lastPrice) then [t.lastPrice.value]
      else if RealTruthy(t.ltp) then [t.ltp.value]
      else if RealTruthy(t.lastTradedPrice) then [t.lastTradedPrice.value]
      else []
  {
  }

  /** The stop used once the first target is hit: the buy price in BUY mode,
      otherwise the midpoint of the buy price and the first target. */
  function BaseSl(mode: string, buyPrice: real, firstTarget: real): (b: real)
    ensures mode == "BUY" ==> b == buyPrice
    ensures mode != "BUY" && buyPrice <= firstTarget ==> buyPrice <= b <= firstTarget
    ensures mode != "BUY" ==> b - buyPrice == firstTarget - b
  {
    if mode == "BUY" then buyPrice else (buyPrice + firstTarget) / 2.0
  }

  /** What one `handle_price` call did. */
  datatype TickAction =
    | NoAction
    | FirstTarget(newSl: real, modified: bool)  // first target reached; `modify_sl` returned `modified`
    | Trail(newSl: real, modified: bool)        // trailing update; `modify_sl` returned `modified`

  /** The `modify_sl` result inside a `handle_price` result. */
  function ModifyOutcome(r: Result<TickAction>): Result<bool> {
    match r
    case Err(e) => Err(e)
    case Ok(NoAction) => Ok(false)
    case Ok(FirstTarget(_, m)) => Ok(m)
    case Ok(Trail(_, m)) => Ok(m)
  }

  /** The snapshots `handle_price` saves: `modify_sl`'s own save when it
      moved the stop, then the unconditional save after the first target. */
  function TickWrites(r: Result<TickAction>, s: Snapshot): seq<Snapshot> {
    match r
    case Ok(FirstTarget(_, m)) => (if m then [s] else []) + [s]
    case Ok(Trail(_, m)) => if m then [s] else []
    case _ => []
  }

  /** `handle_price(ltp)` at time `now`, from state `s` to `s'`, with broker calls `delta`. */
  ghost predicate TickStep(cfg: Config, buyPrice: real, targetGap: real, trailStep: real, s: Snapshot,
                           ltp: real, now: real, delta: seq<Call>, s': Snapshot, r: Result<TickAction>)
    ensures TickStep(cfg, buyPrice, targetGap, trailStep, s, ltp, now, delta, s', r) ==>
              |delta| <= 2 && forall i :: 0 <= i < |delta| ==> !delta[i].Positions?
  {
    var firstTarget := buyPrice + targetGap;
    var base := BaseSl(cfg.firstTargetSlMode, buyPrice, firstTarget);
    var hit := s.firstTargetHit.GetOr(false);
    if !hit && ltp >= firstTarget then
      (r.Ok? ==> r.value.FirstTarget? && r.value.newSl == base) &&
      ModifySlStep(cfg, cfg.symbol, cfg.quantity, s.(firstTargetHit := Some(true)), base, now, delta, s',
                   ModifyOutcome(r))
    else if hit && ltp > firstTarget then
      var candidate := TrailingSteps(base, ltp, firstTarget, trailStep);
      if candidate > s.slTrigger.GetOr(0.0) + cfg.minSlStep then
        (r.Ok? ==> r.value.Trail? && r.value.newSl == candidate) &&
        ModifySlStep(cfg, cfg.symbol, cfg.quantity, s, candidate, now, delta, s', ModifyOutcome(r))
      else
        delta == [] && s' == s && r == Ok(NoAction)
    else
      delta == [] && s' == s && r == Ok(NoAction)
  }

  /** `handle_price` applied to each of `prices` in turn: `states` are the
      snapshots between the calls, `calls[i]` the broker calls of call `i`
      and `outcomes[i]` its result. Only the last call may have failed. */
  ghost predicate TickRun(cfg: Config, buyPrice: real, targetGap: real, trailStep: real, prices: seq<real>,
                          now: real, states: seq<Snapshot>, calls: seq<seq<Call>>, outcomes: seq<Result<TickAction>>)
  {
    |states| == |prices| + 1 && |calls| == |prices| && |outcomes| == |prices| &&
    (forall i :: 0 <= i < |prices| ==> StepAt(cfg, buyPrice, targetGap, trailStep, prices, now, states, calls, outcomes, i)) &&
    forall i :: 0 <= i < |outcomes| - 1 ==> outcomes[i].Ok?
  }

  /** Call `i` of a run is a `handle_price` step. */
  ghost predicate StepAt(cfg: Config, buyPrice: real, targetGap: real, trailStep: real, prices: seq<real>,
                         now: real, states: seq<Snapshot>, calls: seq<seq<Call>>, outcomes: seq<Result<TickAction>>,
                         i: nat)
    requires i < |prices| && |states| == |prices| + 1 && |calls| == |prices| && |outcomes| == |prices|
  {
    TickStep(cfg, buyPrice, targetGap, trailStep, states[i], prices[i], now, calls[i], states[i + 1], outcomes[i])
  }

  /** The broker calls made by the first `n` calls of a run, in order. */
  ghost function Flatten(calls: seq<seq<Call>>, n: nat): seq<Call>
    requires n <= |calls|
  {
    if n == 0 then [] else Flatten(calls, n - 1) + calls[n - 1]
  }

  /** The snapshots saved by the first `n` calls of a run, `states[i + 1]`
      being the state after call `i`. */
  ghost function RunWrites(outcomes: seq<Result<TickAction>>, states: seq<Snapshot>, n: nat): seq<Snapshot>
    requires n <= |outcomes| < |states|
  {
    if n == 0 then [] else RunWrites(outcomes, states, n - 1) + TickWrites(outcomes[n - 1], states[n])
  }

  lemma {:induction false} FlattenAgree(a: seq<seq<Call>>, b: seq<seq<Call>>, n: nat)
    requires n <= |a| && n <= |b|
    requires forall i :: 0 <= i < n ==> a[i] == b[i]
    ensures Flatten(a, n) == Flatten(b, n)
  {
    if n > 0 {
      FlattenAgree(a, b, n - 1);
    }
  }

  lemma {:induction false} RunWritesAgree(o: seq<Result<TickAction>>, s: seq<Snapshot>, o': seq<Result<TickAction>>,
                                          s': seq<Snapshot>, n: nat)
    requires n <= |o| < |s| && n <= |o'| < |s'|
    requires forall i :: 0 <= i < n ==> o[i] == o'[i]
    requires forall i :: 0 <= i <= n ==> s[i] == s'[i]
    ensures RunWrites(o, s, n) == RunWrites(o', s', n)
  {
    if n > 0 {
      RunWritesAgree(o, s, o', s', n - 1);
    }
  }

  lemma FlattenSnoc(calls: seq<seq<Call>>, delta: seq<Call>)
    ensures Flatten(calls + [delta], |calls| + 1) == Flatten(calls, |calls|) + delta
  {
    FlattenAgree(calls + [delta], calls, |calls|);
  }

  lemma RunWritesSnoc(outcomes: seq<Result<TickAction>>, states: seq<Snapshot>, h: Result<TickAction>, s: Snapshot)
    requires |states| == |outcomes| + 1
    ensures RunWrites(outcomes + [h], states + [s], |outcomes| + 1) ==
              RunWrites(outcomes, states, |outcomes|) + TickWrites(h, s)
  {
    RunWritesAgree(outcomes + [h], states + [s], outcomes, states, |outcomes|);
    assert (states + [s])[|outcomes| + 1] == s;
  }

  /** A run whose calls all succeeded extends by one more `handle_price`
      call, from log `log` and saved snapshots `saved` to `log'` and `saved'`. */
  lemma RunExtends(cfg: Config, buyPrice: real, targetGap: real, trailStep: real, prices: seq<real>,
                   now: real, states: seq<Snapshot>, calls: seq<seq<Call>>, outcomes: seq<Result<TickAction>>,
                   c0: seq<Call>, w0: seq<Snapshot>, log: seq<Call>, log': seq<Call>, saved: seq<Snapshot>,
                   saved': seq<Snapshot>, ltp: real, s': Snapshot, h: Result<TickAction>)
    requires TickRun(cfg, buyPrice, targetGap, trailStep, prices, now, states, calls, outcomes)
    requires |outcomes| > 0 ==> outcomes[|outcomes| - 1].Ok?
    requires log == c0 + Flatten(calls, |calls|) && saved == w0 + RunWrites(outcomes, states, |outcomes|)
    requires log <= log' && saved' == saved + TickWrites(h, s')
    requires TickStep(cfg, buyPrice, targetGap, trailStep, states[|states| - 1], ltp, now, log'[|log|..], s', h)
    ensures TickRun(cfg, buyPrice, targetGap, trailStep, prices + [ltp], now, states + [s'], calls + [log'[|log|..]],
                    outcomes + [h])
    ensures log' == c0 + Flatten(calls + [log'[|log|..]], |calls| + 1)
    ensures saved' == w0 + RunWrites(outcomes + [h], states + [s'], |outcomes| + 1)
  {
    TickRunSnoc(cfg, buyPrice, targetGap, trailStep, prices, now, states, calls, outcomes, ltp, log'[|log|..], s', h);
    CallsExtend(calls, c0, log, log');
    WritesExtend(outcomes, states, w0, saved, saved', s', h);
  }

  lemma TickRunSnoc(cfg: Config, buyPrice: real, targetGap: real, trailStep: real, prices: seq<real>,
                    now: real, states: seq<Snapshot>, calls: seq<seq<Call>>, outcomes: seq<Result<TickAction>>,
                    ltp: real, delta: seq<Call>, s': Snapshot, h: Result<TickAction>)
    requires TickRun(cfg, buyPrice, targetGap, trailStep, prices, now, states, calls, outcomes)
    requires |outcomes| > 0 ==> outcomes[|outcomes| - 1].Ok?
    requires TickStep(cfg, buyPrice, targetGap, trailStep, states[|states| - 1], ltp, now, delta, s', h)
    ensures TickRun(cfg, buyPrice, targetGap, trailStep, prices + [ltp], now, states + [s'], calls + [delta],
                    outcomes + [h])
  {
    var P, S, C, O := prices + [ltp], states + [s'], calls + [delta], outcomes + [h];
    forall i | 0 <= i < |P|
      ensures StepAt(cfg, buyPrice, targetGap, trailStep, P, now, S, C, O, i)
    {
      if i < |prices| {
        assert StepAt(cfg, buyPrice, targetGap, trailStep, prices, now, states, calls, outcomes, i);
        assert S[i] == states[i] && S[i + 1] == states[i + 1];
        assert P[i] == prices[i] && C[i] == calls[i] && O[i] == outcomes[i];
      }
    }
    assert forall i :: 0 <= i < |O| - 1 ==> O[i] == outcomes[i];
  }

  lemma CallsExtend(calls: seq<seq<Call>>, c0: seq<Call>, log: seq<Call>, log': seq<Call>)
    requires log == c0 + Flatten(calls, |calls|) && log <= log'
    ensures log' == c0 + Flatten(calls + [log'[|log|..]], |calls| + 1)
  {
    var delta := log'[|log|..];
    FlattenSnoc(calls, delta);
    assert log' == log + delta;
    AppendAssoc(c0, Flatten(calls, |calls|), delta);
  }

  lemma WritesExtend(outcomes: seq<Result<TickAction>>, states: seq<Snapshot>, w0: seq<Snapshot>,
                     saved: seq<Snapshot>, saved': seq<Snapshot>, s': Snapshot, h: Result<TickAction>)
    requires |states| == |outcomes| + 1
    requires saved == w0 + RunWrites(outcomes, states, |outcomes|) && saved' == saved + TickWrites(h, s')
    ensures saved' == w0 + RunWrites(outcomes + [h], states + [s'], |outcomes| + 1)
  {
    RunWritesSnoc(outcomes, states, h, s');
    AppendAssoc(w0, RunWrites(outcomes, states, |outcomes|), TickWrites(h, s'));
  }

  /** A run whose last call succeeded succeeded throughout. */
  lemma RunAllOk(cfg: Config, buyPrice: real, targetGap: real, trailStep: real, prices: seq<real>,
                 now: real, states: seq<Snapshot>, calls: seq<seq<Call>>, outcomes: seq<Result<TickAction>>)
    requires TickRun(cfg, buyPrice, targetGap, trailStep, prices, now, states, calls, outcomes)
    requires |outcomes| > 0 ==> outcomes[|outcomes| - 1].Ok?
    ensures forall i :: 0 <= i < |outcomes| ==> outcomes[i].Ok?
  {
  }

  lemma AppendAssoc<T>(a: seq<T>, b: seq<T>, c: seq<T>)
    ensures a + (b + c) == (a + b) + c
  {
  }

  class Session {
    const cfg: Config
    const state: BotState
    const kite: Broker
    const store: StateFile
    const trailing: TrailingSL
    const buyPrice: real
    const targetGap: real
    const trailStep: real
    var instrumentToken: Option<int>

    /** The engine works on the same state, broker and file as the session. */
    predicate Valid() {
      trailing.state == state && trailing.kite == kite && trailing.store == store &&
      trailing.cfg == cfg && trailing.symbol == cfg.symbol && trailing.quantity == cfg.quantity
    }

    constructor (cfg: Config, trailing: TrailingSL, buyPrice: real, targetGap: real, trailStep: real)
      requires trailing.cfg == cfg && trailing.symbol == cfg.symbol && trailing.quantity == cfg.quantity
      ensures Valid() && this.cfg == cfg && this.trailing == trailing
      ensures state == trailing.state && kite == trailing.kite && store == trailing.store
      ensures this.buyPrice == buyPrice && this.targetGap == targetGap && this.trailStep == trailStep
      ensures instrumentToken == None
    {
      this.cfg, this.trailing := cfg, trailing;
      this.state, this.kite, this.store := trailing.state, trailing.kite, trailing.store;
      this.buyPrice, this.targetGap, this.trailStep := buyPrice, targetGap, trailStep;
      instrumentToken := None;
    }

    /** `on_connect`: the token looked up for the symbol is remembered; a
        failed lookup leaves it as it was. */
    method OnConnect(lookup: Result<Option<int>>)
      modifies this
      ensures instrumentToken == if lookup.Ok? then lookup.value else old(instrumentToken)
    {
      if lookup.Ok? {
        instrumentToken := lookup.value;
      }
    }

    method HandlePrice(ltp: real, now: real) returns (r: Result<TickAction>)
      requires Valid()
      modifies state, kite, store
      ensures old(kite.calls) <= kite.calls
      ensures TickStep(cfg, buyPrice, targetGap, trailStep, old(state.Snap()), ltp, now,
                       kite.calls[|old(kite.calls)|..], state.Snap(), r)
      ensures store.writes == old(store.writes) + TickWrites(r, state.Snap())
    {
      var firstTarget := buyPrice + targetGap;
      if !state.firstTargetHit.GetOr(false) && ltp >= firstTarget {
        state.firstTargetHit := Some(true);
        var newSl := BaseSl(cfg.firstTargetSlMode, buyPrice, firstTarget);
        var m := trailing.ModifySl(newSl, now);
        if m.Err? {
          return Err(m.error);
        }
        store.Save(state);
        return Ok(FirstTarget(newSl, m.value));
      }
      if state.firstTargetHit.GetOr(false) && ltp > firstTarget {
        var baseSl := BaseSl(cfg.firstTargetSlMode, buyPrice, firstTarget);
        var newSl := TrailingSteps(baseSl, ltp, firstTarget, trailStep);
        var currentSl := state.slTrigger.GetOr(0.0);
        if newSl > currentSl + cfg.minSlStep {
          var m := trailing.ModifySl(newSl, now);
          if m.Err? {
            return Err(m.error);
          }
          return Ok(Trail(newSl, m.value));
        }
      }
      return Ok(NoAction);
    }

    /** `on_ticks`: every tick of the subscribed token with a truthy price
        goes to `handle_price`, in order; an error ends the batch. `handled`
        lists the prices handed over; `states`, `calls` and `outcomes` are the
        snapshots, broker calls and results of those `handle_price` calls,
        which `RunSoFar` ties to the state, broker log and state file before
        and after the batch. */
    method OnTicks(ticks: seq<Tick>, now: real)
      returns (r: Result<()>, ghost handled: seq<real>, ghost states: seq<Snapshot>, ghost calls: seq<seq<Call>>,
               ghost outcomes: seq<Result<TickAction>>)
      requires Valid()
      modifies state, kite, store
      ensures RunSoFar(old(state.Snap()), old(kite.calls), old(store.writes), handled, now, states, calls, outcomes)
      ensures r.Ok? <==> forall i :: 0 <= i < |outcomes| ==> outcomes[i].Ok?
      ensures r.Err? ==> |outcomes| > 0 && outcomes[|outcomes| - 1] == Err(r.error)
      ensures old(kite.calls) <= kite.calls
      ensures handled <= Forwarded(ticks, |ticks|, instrumentToken)
      ensures r.Ok? ==> handled == Forwarded(ticks, |ticks|, instrumentToken)
      ensures Forwarded(ticks, |ticks|, instrumentToken) == [] ==>
                kite.calls == old(kite.calls) && state.Snap() == old(state.Snap()) && store.writes == old(store.writes)
      ensures old(state.firstTargetHit).GetOr(false) && cfg.minSlStep >= 0.0 ==>
                state.firstTargetHit == old(state.firstTargetHit) &&
                state.slTrigger.GetOr(0.0) >= old(state.slTrigger).GetOr(0.0)
    {
      ghost var s0, c0, w0 := state.Snap(), kite.calls, store.writes;
      handled, states, calls, outcomes := [], [s0], [], [];
      r := Ok(());
      var i := 0;
      while i < |ticks| && r.Ok?
        invariant 0 <= i <= |ticks|
        invariant handled == Forwarded(ticks, i, instrumentToken)
        invariant RunSoFar(s0, c0, w0, handled, now, states, calls, outcomes)
        invariant r.Ok? ==> (|outcomes| > 0 ==> outcomes[|outcomes| - 1].Ok?)
        invariant r.Err? ==> |outcomes| > 0 && outcomes[|outcomes| - 1] == Err(r.error)
      {
        var t := ticks[i];
        if t.instrumentToken == instrumentToken {
          var ltp := TickPrice(t);
          if ltp.Some? {
            var h;
            h, states, calls, outcomes := HandleInRun(ltp.value, now, s0, c0, w0, handled, states, calls, outcomes);
            handled := handled + [ltp.value];
            if h.Err? {
              r := Err(h.error);
            }
          }
        }
        i := i + 1;
      }
      ForwardedPrefix(ticks, i, |ticks|, instrumentToken);
      BatchOutcome(ticks, now, s0, c0, w0, r, handled, states, calls, outcomes);
    }

    /** `prices` have been handed to `handle_price` in turn, starting from
        state `s0`, broker log `c0` and saved snapshots `w0`, and leading to
        the current state. */
    ghost predicate RunSoFar(s0: Snapshot, c0: seq<Call>, w0: seq<Snapshot>, prices: seq<real>, now: real,
                             states: seq<Snapshot>, calls: seq<seq<Call>>, outcomes: seq<Result<TickAction>>)
      reads state, kite, store
    {
      TickRun(cfg, buyPrice, targetGap, trailStep, prices, now, states, calls, outcomes) &&
      states[0] == s0 && states[|states| - 1] == state.Snap() &&
      kite.calls == c0 + Flatten(calls, |calls|) && store.writes == w0 + RunWrites(outcomes, states, |outcomes|)
    }

    /** One `handle_price` call of `on_ticks`, extending the run so far by
        the call's state, broker calls and result. */
    method HandleInRun(ltp: real, now: real, ghost s0: Snapshot, ghost c0: seq<Call>, ghost w0: seq<Snapshot>,
                       ghost prices: seq<real>, ghost states: seq<Snapshot>, ghost calls: seq<seq<Call>>,
                       ghost outcomes: seq<Result<TickAction>>)
      returns (h: Result<TickAction>, ghost states': seq<Snapshot>, ghost calls': seq<seq<Call>>,
               ghost outcomes': seq<Result<TickAction>>)
      requires Valid()
      requires RunSoFar(s0, c0, w0, prices, now, states, calls, outcomes)
      requires |outcomes| > 0 ==> outcomes[|outcomes| - 1].Ok?
      modifies state, kite, store
      ensures RunSoFar(s0, c0, w0, prices + [ltp], now, states', calls', outcomes')
      ensures outcomes' == outcomes + [h]
    {
      ghost var log, saved := kite.calls, store.writes;
      h := HandlePrice(ltp, now);
      RunExtends(cfg, buyPrice, targetGap, trailStep, prices, now, states, calls, outcomes, c0, w0, log, kite.calls,
                 saved, store.writes, ltp, state.Snap(), h);
      states', calls', outcomes' := states + [state.Snap()], calls + [kite.calls[|log|..]], outcomes + [h];
    }

    /** The postcondition of `OnTicks`, from the run it made: `s0`, `c0` and
        `w0` are the state, broker log and saved snapshots it started from. */
    lemma BatchOutcome(ticks: seq<Tick>, now: real, s0: Snapshot, c0: seq<Call>, w0: seq<Snapshot>, r: Result<()>,
                       handled: seq<real>, states: seq<Snapshot>, calls: seq<seq<Call>>,
                       outcomes: seq<Result<TickAction>>)
      requires RunSoFar(s0, c0, w0, handled, now, states, calls, outcomes)
      requires handled <= Forwarded(ticks, |ticks|, instrumentToken)
      requires r.Ok? ==> handled == Forwarded(ticks, |ticks|, instrumentToken) && (|outcomes| > 0 ==> outcomes[|outcomes| - 1].Ok?)
      requires r.Err? ==> |outcomes| > 0 && outcomes[|outcomes| - 1] == Err(r.error)
      ensures r.Ok? <==> forall i :: 0 <= i < |outcomes| ==> outcomes[i].Ok?
      ensures r.Err? ==> |outcomes| > 0 && outcomes[|outcomes| - 1] == Err(r.error)
      ensures c0 <= kite.calls
      ensures Forwarded(ticks, |ticks|, instrumentToken) == [] ==> kite.calls == c0 && state.Snap() == s0 && store.writes == w0
      ensures s0.firstTargetHit.GetOr(false) && cfg.minSlStep >= 0.0 ==>
                state.firstTargetHit == s0.firstTargetHit && state.slTrigger.GetOr(0.0) >= s0.slTrigger.GetOr(0.0)
    {
      RunConsequences(s0, c0, w0, handled, now, states, calls, outcomes);
      if r.Ok? {
        RunAllOk(cfg, buyPrice, targetGap, trailStep, handled, now, states, calls, outcomes);
      }
    }

    /** What a run says about the state reached: the broker log only grows,
        a run of no calls changes nothing, and once the first target is hit
        the flag stays set and the stop trigger does not fall. */
    lemma RunConsequences(s0: Snapshot, c0: seq<Call>, w0: seq<Snapshot>, prices: seq<real>, now: real,
                          states: seq<Snapshot>, calls: seq<seq<Call>>, outcomes: seq<Result<TickAction>>)
      requires RunSoFar(s0, c0, w0, prices, now, states, calls, outcomes)
      ensures c0 <= kite.calls
      ensures prices == [] ==> kite.calls == c0 && state.Snap() == s0 && store.writes == w0
      ensures s0.firstTargetHit.GetOr(false) && cfg.minSlStep >= 0.0 ==>
                state.firstTargetHit == s0.firstTargetHit && state.slTrigger.GetOr(0.0) >= s0.slTrigger.GetOr(0.0)
    {
      if s0.firstTargetHit.GetOr(false) && cfg.minSlStep >= 0.0 {
        RunNeverRetreats(cfg, buyPrice, targetGap, trailStep, prices, now, states, calls, outcomes, 0, |states| - 1);
      }
    }
  }

  /** Once the first target has been hit, a tick never lowers the stop
      trigger (a missing trigger counts as 0.0) and the hit flag stays set. */
  lemma TickNeverRetreats(cfg: Config, buyPrice: real, targetGap: real, trailStep: real, s: Snapshot,
                          ltp: real, now: real, delta: seq<Call>, s': Snapshot, r: Result<TickAction>)
    requires TickStep(cfg, buyPrice, targetGap, trailStep, s, ltp, now, delta, s', r)
    requires s.firstTargetHit.GetOr(false) && cfg.minSlStep >= 0.0
    ensures s'.firstTargetHit == s.firstTargetHit
    ensures s'.slTrigger.GetOr(0.0) >= s.slTrigger.GetOr(0.0)
  {
  }

  /** Along a run, once the first target has been hit the hit flag stays set
      and the stop trigger never goes down. */
  lemma {:induction false} RunNeverRetreats(cfg: Config, buyPrice: real, targetGap: real, trailStep: real,
                                            prices: seq<real>, now: real, states: seq<Snapshot>,
                                            calls: seq<seq<Call>>, outcomes: seq<Result<TickAction>>, j: nat, k: nat)
    requires TickRun(cfg, buyPrice, targetGap, trailStep, prices, now, states, calls, outcomes)
    requires j <= k < |states|
    requires states[j].firstTargetHit.GetOr(false) && cfg.minSlStep >= 0.0
    ensures states[k].firstTargetHit == states[j].firstTargetHit
    ensures states[k].slTrigger.GetOr(0.0) >= states[j].slTrigger.GetOr(0.0)
  {
    if j < k {
      RunNeverRetreats(cfg, buyPrice, targetGap, trailStep, prices, now, states, calls, outcomes, j, k - 1);
      assert StepAt(cfg, buyPrice, targetGap, trailStep, prices, now, states, calls, outcomes, k - 1);
      TickNeverRetreats(cfg, buyPrice, targetGap, trailStep, states[k - 1], prices[k - 1], now, calls[k - 1],
                        states[k], outcomes[k - 1]);
    }
  }

  /** Before the first target is hit, a tick below it changes nothing and
      calls no broker operation. */
  lemma TickBelowTargetIsInert(cfg: Config, buyPrice: real, targetGap: real, trailStep: real, s: Snapshot,
                               ltp: real, now: real, delta: seq<Call>, s': Snapshot, r: Result<TickAction>)
    requires TickStep(cfg, buyPrice, targetGap, trailStep, s, ltp, now, delta, s', r)
    requires !s.firstTargetHit.GetOr(false) && ltp < buyPrice + targetGap
    ensures delta == [] && s' == s && r == Ok(NoAction)
  {
  }

  /** The tick that reaches the first target sets the hit flag whatever
      `modify_sl` does (throttled, failed or not), moves the stop request to
      the base stop, and does not trail on the same tick. */
  lemma FirstTargetTick(cfg: Config, buyPrice: real, targetGap: real, trailStep: real, s: Snapshot,
                        ltp: real, now: real, delta: seq<Call>, s': Snapshot, r: Result<TickAction>)
    requires TickStep(cfg, buyPrice, targetGap, trailStep, s, ltp, now, delta, s', r)
    requires !s.firstTargetHit.GetOr(false) && ltp >= buyPrice + targetGap
    ensures s'.firstTargetHit == Some(true)
    ensures r.Ok? ==> r.value == FirstTarget(BaseSl(cfg.firstTargetSlMode, buyPrice, buyPrice + targetGap), r.value.modified)
    ensures forall i :: 0 <= i < |delta| ==> delta[i].Modify? ==>
              delta[i].newTrigger == BaseSl(cfg.firstTargetSlMode, buyPrice, buyPrice + targetGap)
    ensures forall i :: 0 <= i < |delta| ==> delta[i].Place? ==>
              delta[i].trigger == BaseSl(cfg.firstTargetSlMode, buyPrice, buyPrice + targetGap)
  {
  }

  /** In the trailing branch `modify_sl` is asked for a stop only when it
      clears the current one by more than MIN_SL_STEP. */
  lemma TrailOnlyPastMargin(cfg: Config, buyPrice: real, targetGap: real, trailStep: real, s: Snapshot,
                            ltp: real, now: real, delta: seq<Call>, s': Snapshot, r: Result<TickAction>)
    requires TickStep(cfg, buyPrice, targetGap, trailStep, s, ltp, now, delta, s', r)
    requires s.firstTargetHit.GetOr(false)
    requires r.Ok? && r.value.Trail?
    ensures ltp > buyPrice + targetGap
    ensures r.value.newSl > s.slTrigger.GetOr(0.0) + cfg.minSlStep
    ensures r.value.newSl ==
              TrailingSteps(BaseSl(cfg.firstTargetSlMode, buyPrice, buyPrice + targetGap), ltp, buyPrice + targetGap, trailStep)
  {
  }

  /** After the hit, a tick reaches the broker at all only in the trailing
      branch, so only for a candidate stop that clears the current one by
      more than MIN_SL_STEP, whether or not `modify_sl` then raises. */
  lemma TrailCallsPastMargin(cfg: Config, buyPrice: real, targetGap: real, trailStep: real, s: Snapshot,
                             ltp: real, now: real, delta: seq<Call>, s': Snapshot, r: Result<TickAction>)
    requires TickStep(cfg, buyPrice, targetGap, trailStep, s, ltp, now, delta, s', r)
    requires s.firstTargetHit.GetOr(false)
    ensures delta != [] ==>
              ltp > buyPrice + targetGap &&
              TrailingSteps(BaseSl(cfg.firstTargetSlMode, buyPrice, buyPrice + targetGap), ltp, buyPrice + targetGap,
                            trailStep) > s.slTrigger.GetOr(0.0) + cfg.minSlStep
  {
  }

  // ---------------------------------------------------------------------
  // run_bot: start-up
  // ---------------------------------------------------------------------

  /** `money_to_points(value, QUANTITY, LOTS, RISK_MODE)`. */
  function Points(cfg: Config, value: real): Result<real> {
    MoneyToPoints(value, cfg.quantity as real, cfg.lots as real, cfg.riskMode)
  }

  /** True when `run_bot` goes past `if not buy_price: return`. */
  predicate HasBuyPrice(loaded: Result<Option<Held>>) {
    loaded.Ok? && loaded.value.Some? && loaded.value.value.buyPrice != 0.0
  }

  /** `run_bot` up to the start of the ticker: load the position, compute the
      three distances, and place the initial stop at `buy_price - sl_gap`
      only when the state holds no order id. The websocket loop itself is
      not modelled; the returned session holds what its callbacks capture.
      `loadCalls`, `afterLoad` and `loadWrites` describe the load step. */
  method RunBot(cfg: Config, state: BotState, kite: Broker, store: StateFile, now: real)
    returns (session: Session?, r: Result<()>, loaded: Result<Option<Held>>,
             ghost loadCalls: seq<Call>, ghost afterLoad: Snapshot, ghost loadWrites: seq<Snapshot>)
    modifies state, kite, store
    ensures old(kite.calls) + loadCalls <= kite.calls
    ensures old(store.writes) + loadWrites <= store.writes
    ensures LoadStep(cfg.symbol, old(state.Snap()), loadCalls, afterLoad, loadWrites, loaded)
    ensures !HasBuyPrice(loaded) ==>
              session == null && r == (if loaded.Err? then Err(loaded.error) else Ok(())) &&
              kite.calls == old(kite.calls) + loadCalls && state.Snap() == afterLoad &&
              store.writes == old(store.writes) + loadWrites
    ensures HasBuyPrice(loaded) && cfg.quantity == 0 ==>
              session == null && r == Err(ZeroDivision) &&
              kite.calls == old(kite.calls) + loadCalls && state.Snap() == afterLoad &&
              store.writes == old(store.writes) + loadWrites
    ensures HasBuyPrice(loaded) && cfg.quantity != 0 && IdTruthy(afterLoad.slOrderId) ==>
              session != null && r == Ok(()) &&
              kite.calls == old(kite.calls) + loadCalls && state.Snap() == afterLoad &&
              store.writes == old(store.writes) + loadWrites
    ensures HasBuyPrice(loaded) && cfg.quantity != 0 && !IdTruthy(afterLoad.slOrderId) ==>
              var trigger := loaded.value.value.buyPrice - Points(cfg, cfg.riskRupees).value;
              var placeCalls := kite.calls[|old(kite.calls)| + |loadCalls|..];
              PlaceStep(cfg, cfg.symbol, cfg.quantity, afterLoad, trigger, now, placeCalls, state.Snap()) &&
              (session != null <==> PlaceReply(placeCalls[0]).Ok?) &&
              (session == null ==> r == Err(GatewayFailure)) &&
              store.writes == old(store.writes) + loadWrites + (if session != null then [state.Snap()] else [])
    ensures session != null ==>
              fresh(session) && session.Valid() && r == Ok(()) &&
              session.cfg == cfg && session.state == state && session.kite == kite && session.store == store &&
              session.instrumentToken == None &&
              HasBuyPrice(loaded) && session.buyPrice == loaded.value.value.buyPrice &&
              Points(cfg, cfg.rewardRupees) == Ok(session.targetGap) &&
              Points(cfg, cfg.trailRupees) == Ok(session.trailStep)
  {
    ghost var calls0 := kite.calls;
    ghost var writes0 := store.writes;
    session := null;
    loaded := LoadPosition(cfg.symbol, state, kite, store);
    loadCalls := kite.calls[|calls0|..];
    afterLoad := state.Snap();
    loadWrites := store.writes[|writes0|..];
    assert calls0 + loadCalls == kite.calls;
    assert writes0 + loadWrites == store.writes;
    if loaded.Err? {
      return null, Err(loaded.error), loaded, loadCalls, afterLoad, loadWrites;
    }
    if loaded.value.None? || loaded.value.value.buyPrice == 0.0 {
      return null, Ok(()), loaded, loadCalls, afterLoad, loadWrites;
    }
    var buyPrice := loaded.value.value.buyPrice;
    var slGap := Points(cfg, cfg.riskRupees);
    var targetGap := Points(cfg, cfg.rewardRupees);
    var trailStep := Points(cfg, cfg.trailRupees);
    if slGap.Err? || targetGap.Err? || trailStep.Err? {
      return null, Err(ZeroDivision), loaded, loadCalls, afterLoad, loadWrites;
    }
    var trailing := new TrailingSL(kite, cfg.symbol, cfg.quantity, cfg, state, store);
    if !IdTruthy(state.slOrderId) {
      var initialSlTrigger := buyPrice - slGap.value;
      var placed := trailing.PlaceInitialSl(initialSlTrigger, now);
      if placed.Err? {
        return null, Err(placed.error), loaded, loadCalls, afterLoad, loadWrites;
      }
    }
    session := new Session(cfg, trailing, buyPrice, targetGap.value, trailStep.value);
    r := Ok(());
  }

  /** A resumed state that already holds an order id places no stop at
      start-up: every broker call `run_bot` makes belongs to loading. */
  lemma ResumePlacesNothing(cfg: Config, s: Snapshot, loadCalls: seq<Call>, afterLoad: Snapshot,
                            loadWrites: seq<Snapshot>, loaded: Result<Option<Held>>)
    requires LoadStep(cfg.symbol, s, loadCalls, afterLoad, loadWrites, loaded)
    requires IdTruthy(s.slOrderId)
    ensures IdTruthy(afterLoad.slOrderId)
    ensures forall i :: 0 <= i < |loadCalls| ==> !loadCalls[i].Place?
  {
  }
}
