/** The protective-stop engine (`TrailingSL`): places the initial stop-loss
    order and moves it, choosing between a throttle skip, a modify of the
    live order, and a cancel-and-replace once the modify budget is spent.

    Every state write happens after the broker call it records has
    returned; a call that raises leaves the state as it was. What one call
    does is stated by `PlaceStep` and `ModifySlStep`, relations between the
    state before, the broker calls made (with the broker's answers), the
    state after and the result. */
module TrailingStop {
  import opened Common
  import opened Settings
  import opened State
  import opened Gateway

  /** The state after a successful place of a stop at `trigger` with id `id`. */
  function Placed(s: Snapshot, id: string, trigger: real, now: real): Snapshot {
    s.(slOrderId := Some(id), slTrigger := Some(trigger), modCount := Some(0), lastSlUpdateTime := Some(now))
  }

  /** `place_initial_sl`: one place call with limit = trigger - buffer; on
      success the id, trigger, a zero modify count and the time are stored,
      and on failure nothing is. */
  ghost predicate PlaceStep(cfg: Config, symbol: string, quantity: int, s: Snapshot, trigger: real, now: real,
                            delta: seq<Call>, s': Snapshot)
    ensures PlaceStep(cfg, symbol, quantity, s, trigger, now, delta, s') ==>
              |delta| == 1 && (s' == s || s'.modCount == Some(0))
  {
    |delta| == 1 && delta[0].Place? &&
    delta[0] == Place(symbol, quantity, trigger, trigger - cfg.orderBuffer, cfg.product, delta[0].orderId) &&
    match delta[0].orderId
    case Some(id) => s' == Placed(s, id, trigger, now)
    case None => s' == s
  }

  /** What `place_initial_sl` returns, read off the broker's answer. */
  function PlaceReply(call: Call): Result<string> {
    if call.Place? && call.orderId.Some? then Ok(call.orderId.value) else Err(GatewayFailure)
  }

  /** True when `modify_sl` at time `now` is skipped by the throttle (a
      missing update time counts as 0). */
  predicate Throttled(cfg: Config, s: Snapshot, now: real) {
    now - s.lastSlUpdateTime.GetOr(0.0) < cfg.throttleSeconds
  }

  /** True when `modify_sl` modifies the live order rather than recreating it
      (a missing modify count counts as 0). */
  predicate CanModify(cfg: Config, s: Snapshot) {
    IdTruthy(s.slOrderId) && s.modCount.GetOr(0) < cfg.maxModifyBeforeRecreate
  }

  /** `modify_sl(t)` at time `now`; `r` is the returned flag or the raised error. */
  ghost predicate ModifySlStep(cfg: Config, symbol: string, quantity: int, s: Snapshot, t: real, now: real,
                               delta: seq<Call>, s': Snapshot, r: Result<bool>)
    ensures ModifySlStep(cfg, symbol, quantity, s, t, now, delta, s', r) ==>
              |delta| <= 2 && forall i :: 0 <= i < |delta| ==> !delta[i].Positions?
  {
    if Throttled(cfg, s, now) then
      delta == [] && s' == s && r == Ok(false)
    else if CanModify(cfg, s) then
      |delta| == 1 && delta[0].Modify? && delta[0] == Modify(s.slOrderId.value, t, t - cfg.orderBuffer, delta[0].modified) &&
      if !delta[0].modified then
        s' == s && r == Err(GatewayFailure)
      else if s.modCount.None? then
        // `mod_count += 1` on a missing key raises after the modify went through
        s' == s && r == Err(MissingKey("mod_count"))
      else
        s' == s.(modCount := Some(s.modCount.value + 1), slTrigger := Some(t), lastSlUpdateTime := Some(now)) &&
        r == Ok(true)
    else if IdTruthy(s.slOrderId) then
      |delta| >= 1 && delta[0].Cancel? && delta[0] == Cancel(s.slOrderId.value, delta[0].cancelled) &&
      if !delta[0].cancelled then
        |delta| == 1 && s' == s && r == Err(GatewayFailure)
      else
        PlaceStep(cfg, symbol, quantity, s, t, now, delta[1..], s') &&
        r == (if PlaceReply(delta[1]).Ok? then Ok(true) else Err(GatewayFailure))
    else
      PlaceStep(cfg, symbol, quantity, s, t, now, delta, s') &&
      r == (if PlaceReply(delta[0]).Ok? then Ok(true) else Err(GatewayFailure))
  }

  /** Placing a stop touches only the four stop fields: the position and
      the first-target flag are kept, and a placed stop starts with a zero
      modify count at the requested trigger. */
  lemma PlaceKeepsPosition(cfg: Config, symbol: string, quantity: int, s: Snapshot, trigger: real, now: real,
                           delta: seq<Call>, s': Snapshot)
    requires PlaceStep(cfg, symbol, quantity, s, trigger, now, delta, s')
    ensures s'.buyPrice == s.buyPrice && s'.positionQty == s.positionQty && s'.firstTargetHit == s.firstTargetHit
    ensures delta[0].orderId.Some? ==>
              s'.slOrderId == delta[0].orderId && s'.modCount == Some(0) && s'.slTrigger == Some(trigger) &&
              s'.lastSlUpdateTime == Some(now)
    ensures delta[0].orderId.None? ==> s' == s
  {
  }

  /** A throttled call makes no broker call, changes no state and returns False. */
  lemma ThrottledIsNoop(cfg: Config, symbol: string, quantity: int, s: Snapshot, t: real, now: real,
                        delta: seq<Call>, s': Snapshot, r: Result<bool>)
    requires ModifySlStep(cfg, symbol, quantity, s, t, now, delta, s', r)
    requires Throttled(cfg, s, now)
    ensures delta == [] && s' == s && r == Ok(false)
  {
  }

  /** Two calls within the throttle interval of a successful one: the second
      is a no-op, so the pair makes at most one modify call. */
  lemma ThrottleIdempotent(cfg: Config, symbol: string, quantity: int, s0: Snapshot,
                           t1: real, now1: real, d1: seq<Call>, s1: Snapshot,
                           t2: real, now2: real, d2: seq<Call>, s2: Snapshot, r2: Result<bool>)
    requires ModifySlStep(cfg, symbol, quantity, s0, t1, now1, d1, s1, Ok(true))
    requires ModifySlStep(cfg, symbol, quantity, s1, t2, now2, d2, s2, r2)
    requires now1 <= now2 < now1 + cfg.throttleSeconds
    ensures d2 == [] && s2 == s1 && r2 == Ok(false)
    ensures |d1 + d2| <= 2
    ensures forall i, j :: 0 <= i < j < |d1 + d2| ==> !((d1 + d2)[i].Modify? && (d1 + d2)[j].Modify?)
  {
    assert s1.lastSlUpdateTime == Some(now1);
    assert d1 + d2 == d1;
  }

  /** `0 <= mod_count <= MAX_MODIFY_BEFORE_RECREATE` is preserved by every
      call, whatever the broker answers. */
  lemma ModCountStaysBounded(cfg: Config, symbol: string, quantity: int, s: Snapshot, t: real, now: real,
                             delta: seq<Call>, s': Snapshot, r: Result<bool>)
    requires ModifySlStep(cfg, symbol, quantity, s, t, now, delta, s', r)
    requires 0 <= s.modCount.GetOr(0) <= cfg.maxModifyBeforeRecreate
    ensures 0 <= s'.modCount.GetOr(0) <= cfg.maxModifyBeforeRecreate
  {
  }

  /** A call that raises leaves the state as it was. */
  lemma FailureLeavesState(cfg: Config, symbol: string, quantity: int, s: Snapshot, t: real, now: real,
                           delta: seq<Call>, s': Snapshot, r: Result<bool>)
    requires ModifySlStep(cfg, symbol, quantity, s, t, now, delta, s', r)
    requires r.Err?
    ensures s' == s
  {
  }

  /** With an order id and budget left: one modify call with limit = trigger -
      buffer; on success the count goes up by exactly one, the trigger and
      time are set, and the order id is kept. */
  lemma ModifyPath(cfg: Config, symbol: string, quantity: int, s: Snapshot, t: real, now: real,
                   delta: seq<Call>, s': Snapshot, r: Result<bool>)
    requires ModifySlStep(cfg, symbol, quantity, s, t, now, delta, s', r)
    requires !Throttled(cfg, s, now) && CanModify(cfg, s)
    ensures |delta| == 1 && delta[0].Modify? && delta[0].modifiedId == s.slOrderId.value
    ensures delta[0].newTrigger == t && delta[0].newLimit == t - cfg.orderBuffer
    ensures r == Ok(true) ==>
              s.modCount.Some? && s'.modCount == Some(s.modCount.value + 1) && s'.slTrigger == Some(t) &&
              s'.lastSlUpdateTime == Some(now) && s'.slOrderId == s.slOrderId
  {
  }

  /** With an order id and the budget used up: that order is cancelled first,
      and only if the cancel succeeded a new order is placed whose id is
      stored with a count of 0. */
  lemma RecreatePath(cfg: Config, symbol: string, quantity: int, s: Snapshot, t: real, now: real,
                     delta: seq<Call>, s': Snapshot, r: Result<bool>)
    requires ModifySlStep(cfg, symbol, quantity, s, t, now, delta, s', r)
    requires !Throttled(cfg, s, now) && IdTruthy(s.slOrderId) && s.modCount.GetOr(0) >= cfg.maxModifyBeforeRecreate
    ensures 1 <= |delta| <= 2 && delta[0].Cancel? && delta[0].cancelledId == s.slOrderId.value
    ensures |delta| == 2 <==> delta[0].cancelled
    ensures |delta| == 2 ==> delta[1].Place? && delta[1].trigger == t && delta[1].limit == t - cfg.orderBuffer
    ensures r == Ok(true) ==>
              |delta| == 2 && delta[1].orderId.Some? &&
              s' == Placed(s, delta[1].orderId.value, t, now)
    ensures r == Ok(true) ==> s'.modCount == Some(0)
  {
  }

  /** Without an order id nothing is cancelled: the call just places a new order. */
  lemma NoOrderJustPlaces(cfg: Config, symbol: string, quantity: int, s: Snapshot, t: real, now: real,
                          delta: seq<Call>, s': Snapshot, r: Result<bool>)
    requires ModifySlStep(cfg, symbol, quantity, s, t, now, delta, s', r)
    requires !Throttled(cfg, s, now) && !IdTruthy(s.slOrderId)
    ensures |delta| == 1 && delta[0].Place? && delta[0].trigger == t
    ensures forall i :: 0 <= i < |delta| ==> !delta[i].Cancel?
    ensures r == Ok(true) <==> delta[0].orderId.Some?
  {
  }

  /** A run of successful calls, each one within the relation above. */
  ghost predicate SuccessfulRun(cfg: Config, symbol: string, quantity: int, states: seq<Snapshot>,
                                ts: seq<real>, nows: seq<real>, deltas: seq<seq<Call>>)
  {
    |states| == |ts| + 1 && |nows| == |ts| && |deltas| == |ts| &&
    forall i :: 0 <= i < |ts| ==>
      ModifySlStep(cfg, symbol, quantity, states[i], ts[i], nows[i], deltas[i], states[i + 1], Ok(true))
  }

  /** From a freshly placed stop (count 0), up to MAX successful calls all
      modify the same order, and after the k-th one the count is k. */
  lemma {:induction false} SuccessfulRunCounts(cfg: Config, symbol: string, quantity: int, states: seq<Snapshot>,
                                               ts: seq<real>, nows: seq<real>, deltas: seq<seq<Call>>)
    requires SuccessfulRun(cfg, symbol, quantity, states, ts, nows, deltas)
    requires states[0].modCount == Some(0) && IdTruthy(states[0].slOrderId)
    requires |ts| <= cfg.maxModifyBeforeRecreate
    ensures forall k :: 0 <= k <= |ts| ==> states[k].modCount == Some(k) && states[k].slOrderId == states[0].slOrderId
    ensures forall k :: 0 <= k < |ts| ==> |deltas[k]| == 1 && deltas[k][0].Modify? &&
                                          deltas[k][0].modifiedId == states[0].slOrderId.value
  {
    if |ts| > 0 {
      var n := |ts| - 1;
      assert SuccessfulRun(cfg, symbol, quantity, states[..n + 1], ts[..n], nows[..n], deltas[..n]) by {
        forall i | 0 <= i < n
          ensures ModifySlStep(cfg, symbol, quantity, states[..n + 1][i], ts[..n][i], nows[..n][i], deltas[..n][i],
                               states[..n + 1][i + 1], Ok(true))
        {
          assert ModifySlStep(cfg, symbol, quantity, states[i], ts[i], nows[i], deltas[i], states[i + 1], Ok(true));
        }
      }
      SuccessfulRunCounts(cfg, symbol, quantity, states[..n + 1], ts[..n], nows[..n], deltas[..n]);
      assert states[n] == states[..n + 1][n];
      assert states[n].modCount == Some(n);
      assert ModifySlStep(cfg, symbol, quantity, states[n], ts[n], nows[n], deltas[n], states[n + 1], Ok(true));
      forall k | 0 <= k < n
        ensures |deltas[k]| == 1 && deltas[k][0].Modify? && deltas[k][0].modifiedId == states[0].slOrderId.value
      {
        assert deltas[k] == deltas[..n][k];
      }
      forall k | 0 <= k <= n
        ensures states[k].modCount == Some(k) && states[k].slOrderId == states[0].slOrderId
      {
        assert states[k] == states[..n + 1][k];
      }
    }
  }

  /** After MAX successful calls from a fresh stop, the next unthrottled call
      cancels that order instead of modifying it, and on success the count
      is back to 0. */
  lemma RecreateOnExhaustion(cfg: Config, symbol: string, quantity: int, states: seq<Snapshot>,
                             ts: seq<real>, nows: seq<real>, deltas: seq<seq<Call>>,
                             t: real, now: real, delta: seq<Call>, s': Snapshot, r: Result<bool>)
    requires SuccessfulRun(cfg, symbol, quantity, states, ts, nows, deltas)
    requires states[0].modCount == Some(0) && IdTruthy(states[0].slOrderId)
    requires |ts| == cfg.maxModifyBeforeRecreate
    requires ModifySlStep(cfg, symbol, quantity, states[|ts|], t, now, delta, s', r)
    requires !Throttled(cfg, states[|ts|], now)
    ensures 1 <= |delta| && delta[0].Cancel? && delta[0].cancelledId == states[0].slOrderId.value
    ensures r == Ok(true) ==> s'.modCount == Some(0) && |delta| == 2 && delta[1].Place?
  {
    SuccessfulRunCounts(cfg, symbol, quantity, states, ts, nows, deltas);
    RecreatePath(cfg, symbol, quantity, states[|ts|], t, now, delta, s', r);
  }

  class TrailingSL {
    const kite: Broker
    const symbol: string
    const quantity: int
    const cfg: Config
    const state: BotState
    const store: StateFile

    constructor (kite: Broker, symbol: string, quantity: int, cfg: Config, state: BotState, store: StateFile)
      ensures this.kite == kite && this.symbol == symbol && this.quantity == quantity
      ensures this.cfg == cfg && this.state == state && this.store == store
    {
      this.kite, this.symbol, this.quantity := kite, symbol, quantity;
      this.cfg, this.state, this.store := cfg, state, store;
    }

    method PlaceInitialSl(trigger: real, now: real) returns (r: Result<string>)
      modifies kite, state, store
      ensures old(kite.calls) <= kite.calls
      ensures PlaceStep(cfg, symbol, quantity, old(state.Snap()), trigger, now, kite.calls[|old(kite.calls)|..], state.Snap())
      ensures r == PlaceReply(kite.calls[|old(kite.calls)|])
      ensures store.writes == old(store.writes) + (if r.Ok? then [state.Snap()] else [])
    {
      var limit := trigger - cfg.orderBuffer;
      r := kite.PlaceSlOrder(symbol, quantity, trigger, limit, cfg.product);
      if r.Err? {
        return;
      }
      state.slOrderId := Some(r.value);
      state.slTrigger := Some(trigger);
      state.modCount := Some(0);
      state.lastSlUpdateTime := Some(now);
      store.Save(state);
    }

    method ModifySl(newTrigger: real, now: real) returns (r: Result<bool>)
      modifies kite, state, store
      ensures old(kite.calls) <= kite.calls
      ensures ModifySlStep(cfg, symbol, quantity, old(state.Snap()), newTrigger, now,
                           kite.calls[|old(kite.calls)|..], state.Snap(), r)
      ensures store.writes == old(store.writes) + (if r == Ok(true) then [state.Snap()] else [])
    {
      if now - state.lastSlUpdateTime.GetOr(0.0) < cfg.throttleSeconds {
        return Ok(false);
      }
      var oid := state.slOrderId;
      if IdTruthy(oid) && state.modCount.GetOr(0) < cfg.maxModifyBeforeRecreate {
        var limit := newTrigger - cfg.orderBuffer;
        var m := kite.ModifyOrder(oid.value, newTrigger, limit);
        if m.Err? {
          return Err(GatewayFailure);
        }
        if state.modCount.None? {
          return Err(MissingKey("mod_count"));
        }
        state.modCount := Some(state.modCount.value + 1);
        state.slTrigger := Some(newTrigger);
        state.lastSlUpdateTime := Some(now);
        store.Save(state);
        return Ok(true);
      }
      ghost var before := kite.calls;
      if IdTruthy(oid) {
        var c := kite.CancelOrder(oid.value);
        if c.Err? {
          return Err(GatewayFailure);
        }
      }
      ghost var mid := kite.calls;
      var p := PlaceInitialSl(newTrigger, now);
      assert kite.calls[|before|..] == mid[|before|..] + kite.calls[|mid|..];
      r := if p.Ok? then Ok(true) else Err(GatewayFailure);
    }
  }
}
