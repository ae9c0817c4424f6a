# Trailing stop-loss bot: a Dafny model

The bot protects one long options position on the Zerodha Kite broker. At start-up it loads the
position (buy price and quantity), either from its saved state file or from the broker's "day" and
"net" position books. It converts rupee budgets into price distances. Unless the saved state
already records a stop order, it places a sell stop-loss order below the buy price. Then it reacts
to price ticks:
- when the price first reaches the first target, the stop moves to the buy price (mode `BUY`) or to
  the midpoint of the buy price and the target;
- after that, the stop trails upwards in whole steps above the target.

The component that moves the stop (`TrailingSL`) throttles updates. It modifies the live order a
bounded number of times and then cancels and replaces it. A separate helper rewrites the `.env`
file with a fresh access token and its date after a login.

The model has these modules, one per source component:

- `Common` (common.dfy): optional values, results with the errors the core can raise (a broker
  failure, a missing dictionary key, a division by zero), and Python truthiness for order ids and
  numbers.
- `Settings` (config.dfy): the configuration values the core reads, passed as one `Config` value.
- `State` (state.dfy):
  - the shared state dictionary, as a class `BotState` whose fields the handlers update in place;
  - `Snapshot`, the value of that dictionary at one moment;
  - the state file, which records every saved snapshot in order.
- `Gateway` (gateway.dfy): the broker, with place / modify / cancel / positions calls. Each call may
  fail or return any answer. Every request and its answer is appended to a ghost call log, and the
  contracts of the core speak about that log.
- `MathHelpers` (math_helpers.dfy): `money_to_points` (with Python's `round(x, 2)`, half to even)
  and `trailing_steps`, on exact reals.
- `TrailingStop` (trailing_sl.dfy): the `TrailingSL` class.
  - `PlaceStep` is a relation between the state before, the broker calls made, and the state
    after. The method `PlaceInitialSl` is proved against it.
  - `ModifySlStep` is the same kind of relation, with the returned value added. The method
    `ModifySl` is proved against it.
  - The lemmas beside them state the throttle, the modify budget, recreation and failure
    behaviour.
- `Bot` (bot.dfy):
  - `load_position`, with the nested scan of the books as a loop proved equal to a first-match
    function;
  - the start-up part of `run_bot`;
  - the tick closures, as the methods of a `Session` object that holds what the closures capture.
  - `TickStep` states what one `handle_price` call does.
- `Auth` (auth.dfy): the line rewriting of `_update_env_file`. It is a loop method proved equal to
  the function `UpdatedLines`, plus Python's `split('\n')` / `'\n'.join`.

Two behaviours of the source are visible in the contracts:
- A failed broker call always leaves the state as it was (`FailureLeavesState`). This includes a
  cancel that succeeds followed by a place that fails: the state then still holds the cancelled
  order's id and the exhausted modify count.
- On the tick that reaches the first target, the hit flag is set in memory even when `modify_sl`
  raises (`FirstTargetTick`). The state is then not saved on that tick.

## Model

| member | source | states |
|---|---|---|
| MathHelpers.UpperChar | trading-bot/src/utils/math_helpers.py:4 | a lower-case ASCII letter becomes the upper-case letter at the same place in the alphabet, any other character is kept, and the result is never a lower-case letter |
| MathHelpers.Upper | trading-bot/src/utils/math_helpers.py:4 | `mode.upper()` keeps the length, leaves no lower-case letter, keeps every other character in place and replaces each lower-case letter by its upper-case partner |
| MathHelpers.PerLotSpellings | trading-bot/src/utils/math_helpers.py:4 | `PER_LOT`, `per_lot` and `Per_Lot` all select the per-lot branch; `TOTAL` and `total` do not |
| MathHelpers.Round2 | trading-bot/src/utils/math_helpers.py:8 | `round(x, 2)` gives a whole number of hundredths within 0.005 of `x`, and an even number of hundredths on a tie |
| MathHelpers.MoneyToPoints | trading-bot/src/utils/math_helpers.py:3-8 | a zero quantity raises ZeroDivisionError and nothing else does; otherwise the result is `round(total/quantity, 2)` with `total = value*lots` in PER_LOT mode (after upper-casing) and `value` in any other mode, so it lies within 0.005 of that quotient |
| MathHelpers.NonPerLotIgnoresLots | trading-bot/src/utils/math_helpers.py:4-7 | any mode other than PER_LOT gives the same result whatever `lots` is |
| MathHelpers.PerLotIsTotalOfLots | trading-bot/src/utils/math_helpers.py:4-8 | PER_LOT with `lots` equals TOTAL with a budget of `value*lots` |
| MathHelpers.PerLotScaleInvariant | trading-bot/tests/test_math_helpers.py:6-13 | PER_LOT with k lots over k*q units equals 1 lot over q units |
| MathHelpers.MoneyToPointsExamples | trading-bot/tests/test_math_helpers.py:4-23 | all twelve parametrised cases of the unit test hold |
| MathHelpers.WholeSteps | trading-bot/src/utils/math_helpers.py:28 | `floor(gap/step)` is the k with `k*step <= gap < (k+1)*step`, and it is non-negative for a non-negative gap |
| MathHelpers.WholeStepsMonotone | trading-bot/src/utils/math_helpers.py:28 | the number of whole steps does not decrease as the gap grows |
| MathHelpers.TrailingSteps | trading-bot/src/utils/math_helpers.py:10-30 | at or below the first target, or with a step size `<= 0`, the stop is `base_sl`; it is never below `base_sl` |
| MathHelpers.TrailingStepsBelowTarget | trading-bot/src/utils/math_helpers.py:23-25 | at or below the first target the stop stays `base_sl`, whatever the step size |
| MathHelpers.TrailingStepsNoStep | trading-bot/src/utils/math_helpers.py:26-27 | a step size `<= 0` leaves the stop at `base_sl` |
| MathHelpers.TrailingStepsWholeSteps | trading-bot/src/utils/math_helpers.py:28-30 | above the target the stop is `base_sl + k*step` for the natural k with `k*step <= ltp - first_target < (k+1)*step` |
| MathHelpers.TrailingStepsBounds | trading-bot/src/utils/math_helpers.py:23-30 | the stop is never below `base_sl`, and above the target it is never more than `base_sl + (ltp - first_target)` |
| MathHelpers.TrailingStepsAbove | trading-bot/src/utils/math_helpers.py:28-30 | above the target with a positive step, the stop is `base_sl` plus the whole number of steps that fit, times the step |
| MathHelpers.TrailingStepsMonotone | trading-bot/src/utils/math_helpers.py:23-30 | the trailed stop is non-decreasing in `ltp` |
| MathHelpers.TrailingStepsExamples | trading-bot/src/utils/math_helpers.py:23-30 | worked values: at the target 27; one step above 30.34; three steps above 37.02 |
| State.LoadState | trading-bot/src/utils/file_helpers.py:4-11 | a missing or unreadable file loads as the empty dictionary, a readable one as its content |
| State.BotState.Load | trading-bot/src/bot.py:12 | the shared dictionary starts as what `load_state` returns |
| State.StateFile.Save | trading-bot/src/utils/file_helpers.py:13-15 | a save records a snapshot of the whole dictionary after all earlier ones |
| Gateway.Broker.PlaceSlOrder | trading-bot/src/kite_client.py:11-23 | one place request is logged with its answer (an order id, or a failure) |
| Gateway.Broker.ModifyOrder | trading-bot/src/kite_client.py:25-31 | one modify request is logged with whether it succeeded |
| Gateway.Broker.CancelOrder | trading-bot/src/kite_client.py:33-34 | one cancel request is logged with whether it succeeded |
| Gateway.Broker.GetPositions | trading-bot/src/kite_client.py:8-9 | one positions request is logged with the books returned, or a failure |
| TrailingStop.TrailingSL.constructor | trading-bot/src/strategies/trailing_sl.py:5-10 | the engine keeps the broker, symbol, quantity, configuration, state and file it is given |
| TrailingStop.PlaceStep | trading-bot/src/strategies/trailing_sl.py:12-20 | placing a stop makes exactly one broker call and either keeps the state or leaves a stop with modify count 0 |
| TrailingStop.ModifySlStep | trading-bot/src/strategies/trailing_sl.py:22-40 | `modify_sl` makes at most two broker calls (a cancel and a place on the recreate path), none of them a positions request |
| TrailingStop.TrailingSL.PlaceInitialSl | trading-bot/src/strategies/trailing_sl.py:12-20 | exactly one place call with `limit = trigger - ORDER_BUFFER`; on success the id, the trigger, `mod_count = 0` and the time are stored and saved, and the id is returned; on failure the state and file are untouched and the error propagates |
| TrailingStop.PlaceKeepsPosition | trading-bot/src/strategies/trailing_sl.py:12-20 | placing changes only the four stop fields; a placed stop has modify count 0, the requested trigger and the current time |
| TrailingStop.TrailingSL.ModifySl | trading-bot/src/strategies/trailing_sl.py:22-40 | throttle skip, modify, or cancel-and-replace, with the exact broker calls, new state, saves (only when True is returned) and result of each path |
| TrailingStop.ThrottledIsNoop | trading-bot/src/strategies/trailing_sl.py:23-25 | with `now - last_sl_update_time < THROTTLE_SECONDS` (a missing time counts as 0) there is no broker call and no state change, and the result is False |
| TrailingStop.ThrottleIdempotent | trading-bot/src/strategies/trailing_sl.py:23-25 | a second call within the throttle interval of a successful one does nothing, so the pair makes at most one modify call |
| TrailingStop.ModifyPath | trading-bot/src/strategies/trailing_sl.py:27-35 | with an order id and budget left there is one modify call with `limit = t - ORDER_BUFFER`; on success `mod_count` goes up by exactly 1, `sl_trigger = t`, the time is `now`, and the id is kept |
| TrailingStop.RecreatePath | trading-bot/src/strategies/trailing_sl.py:36-40 | with an order id and the budget used up, that id is cancelled first; a new order is placed if and only if the cancel succeeded; on success the new id is stored with `mod_count = 0` |
| TrailingStop.NoOrderJustPlaces | trading-bot/src/strategies/trailing_sl.py:37-39 | without an order id there is no cancel, just one place call; the result is True exactly when the place succeeded |
| TrailingStop.ModCountStaysBounded | trading-bot/src/strategies/trailing_sl.py:27-40 | `0 <= mod_count <= MAX_MODIFY_BEFORE_RECREATE` before any call implies the same after it |
| TrailingStop.FailureLeavesState | trading-bot/src/strategies/trailing_sl.py:12-40 | a call that raises leaves the state as it was |
| TrailingStop.SuccessfulRunCounts | trading-bot/src/strategies/trailing_sl.py:27-35 | from a fresh stop, up to MAX successful calls all modify the same order, and after the k-th one the count is k |
| TrailingStop.RecreateOnExhaustion | trading-bot/src/strategies/trailing_sl.py:27-40 | after MAX successful modifies, the next unthrottled call cancels that order, and on success resets the count to 0 |
| Bot.FirstMatchIndex | trading-bot/src/bot.py:22-24 | the position of the first entry for the symbol with a positive quantity, and none before it matches |
| Bot.FirstMatchIsFirst | trading-bot/src/bot.py:22-24 | nothing is found exactly when no entry matches, and a found entry is the earliest match |
| Bot.ScanBooks | trading-bot/src/bot.py:22-29 | the nested loop returns the first match in "day" followed by "net" |
| Bot.LoadStep | trading-bot/src/bot.py:18-31 | loading the position calls the broker for positions only |
| Bot.LoadPosition | trading-bot/src/bot.py:18-31 | with a truthy stored buy price and quantity, those are returned without a broker call; otherwise one positions call, then the first match is stored, saved and returned, or `(None, None)` is returned with the state untouched; a failed positions call changes nothing |
| Bot.LoadOutcome | trading-bot/src/bot.py:18-31 | at most one broker call and one save; a loaded position has a non-zero quantity and is what the state then holds; the stop fields and the first-target flag are never touched |
| Bot.TickPrice | trading-bot/src/bot.py:74-75 | the price is the first truthy one of `last_price`, `ltp` and `last_traded_price`, it is never 0, and there is none exactly when all three are falsy |
| Bot.Forwarded | trading-bot/src/bot.py:71-77 | at most one price is forwarded per tick, and no forwarded price is 0 |
| Bot.ForwardedAgree | trading-bot/src/bot.py:71-77 | what the first n ticks of a batch forward depends on those ticks only |
| Bot.ForwardedPrefix | trading-bot/src/bot.py:71-77 | forwarding more ticks of a batch only extends the list of prices forwarded |
| Bot.ForwardedConcat | trading-bot/src/bot.py:71-77 | the ticks of a batch are forwarded independently and in order |
| Bot.ForwardedSound | trading-bot/src/bot.py:71-77 | a batch with no tick of the subscribed token forwards nothing |
| Bot.ForwardedOne | trading-bot/src/bot.py:73-77 | one tick forwards `last_price`, else `ltp`, else `last_traded_price` (the first truthy one), and only for the subscribed token |
| Bot.BaseSl | trading-bot/src/bot.py:92-95 | BUY mode uses the buy price; any other mode uses the point equidistant from the buy price and the target, and that point lies between them |
| Bot.Session.constructor | trading-bot/src/bot.py:57 | the session shares the engine's state, broker and file, and starts with no instrument token |
| Bot.Session.OnConnect | trading-bot/src/bot.py:59-69 | a successful lookup sets the instrument token; a failed one leaves it as it was |
| Bot.Session.HandlePrice | trading-bot/src/bot.py:82-111 | the first-target branch, the trailing branch and the no-op branch, each with the exact `modify_sl` step, the resulting state and the saves |
| Bot.TickStep | trading-bot/src/bot.py:82-111 | one `handle_price` call makes at most two broker calls, none of them a positions request |
| Bot.TickRunSnoc | trading-bot/src/bot.py:71-77 | a run of `handle_price` calls whose calls so far all succeeded, followed by one more call, is again a run |
| Bot.RunExtends | trading-bot/src/bot.py:71-77 | one more `handle_price` call extends the run, the broker log it accounts for and the snapshots it saved |
| Bot.Session.HandleInRun | trading-bot/src/bot.py:77 | a `handle_price` call inside `on_ticks` extends the run so far by exactly that call and its result |
| Bot.Session.OnTicks | trading-bot/src/bot.py:71-77 | the state, broker log and state file after the batch are those of `handle_price` applied in turn, from the state before, to the prices handed over; those prices are a prefix of the forwarded ones, and all of them when no call raised; the batch fails exactly when a call raised, with that call's error, and it is the last call; a batch forwarding nothing changes nothing; once the target is hit the flag stays set and the stop trigger does not fall (with `MIN_SL_STEP >= 0`) |
| Bot.Session.BatchOutcome | trading-bot/src/bot.py:71-77 | from the run a batch made: the result is Ok exactly when every call succeeded, an error is the last call's; the broker log only grows; nothing forwarded means nothing changed; the stop never retreats after the hit |
| Bot.Session.RunConsequences | trading-bot/src/bot.py:71-111 | a run of `handle_price` calls only appends to the broker log, a run of no calls changes nothing, and after the hit the flag stays set and the stop trigger does not fall |
| Bot.RunNeverRetreats | trading-bot/src/bot.py:71-111 | between any two points of a run after the first target is hit, the flag stays set and `sl_trigger` does not fall (with `MIN_SL_STEP >= 0`) |
| Bot.TickNeverRetreats | trading-bot/src/bot.py:102-111 | after the first target, a tick never lowers `sl_trigger` (a missing trigger counts as 0.0) when `MIN_SL_STEP >= 0` |
| Bot.TickBelowTargetIsInert | trading-bot/src/bot.py:90-102 | before the hit, a tick below the first target changes nothing and makes no broker call |
| Bot.FirstTargetTick | trading-bot/src/bot.py:87-99 | the tick reaching the target sets the hit flag even when throttled or failing; every modify and every place request it makes (the latter on the recreate path) carries the base stop; it does not trail on that tick |
| Bot.TrailOnlyPastMargin | trading-bot/src/bot.py:102-111 | a trailing update happens only above the target, for `trailing_steps(base, ltp, target, trail_step)`, and only when it exceeds `current_sl + MIN_SL_STEP` |
| Bot.TrailCallsPastMargin | trading-bot/src/bot.py:102-111 | after the hit, a tick that makes any broker call (including one where `modify_sl` then raises) is above the target, and its candidate `trailing_steps(base, ltp, target, trail_step)` exceeds `current_sl + MIN_SL_STEP` |
| Bot.RunBot | trading-bot/src/bot.py:36-51 | no buy price stops after loading; a zero quantity raises in `money_to_points`; a state with an order id places nothing; otherwise one stop is placed at `buy_price - sl_gap`; the session gets the target gap and trail step |
| Bot.ResumePlacesNothing | trading-bot/src/bot.py:47-51 | a resumed state with an order id keeps it through loading, and loading makes no place call |
| Auth.FirstWithPrefix | trading-bot/src/auth.py:51-52 | the index of the first line with a prefix, with no earlier line having it |
| Auth.RewriteLines | trading-bot/src/auth.py:38-46 | the rewriting loop gives every token line the new token and every date line the new date, keeps the other lines, and sets each flag exactly when a line of that kind exists |
| Auth.InsertAfterFirstLine | trading-bot/src/auth.py:51-55 | the search-and-insert loop puts the new line right after the first anchor line, or changes nothing |
| Auth.UpdatedLines | trading-bot/src/auth.py:32-63 | the lines written back: the file never loses a line and gains at most two, and with both a token line and a date line present the line count is unchanged |
| Auth.UpdateEnvLines | trading-bot/src/auth.py:32-63 | the rewrite pass followed by the two conditional insertions computes `UpdatedLines` |
| Auth.KeysDisjoint | trading-bot/src/auth.py:39-46 | no line starts with two of the keys, so the order of the `if`/`elif` tests does not matter |
| Auth.RewriteKeepsAnchors | trading-bot/src/auth.py:38-63 | rewriting does not change which lines start with `ACCESS_TOKEN=` or `API_SECRET=`, so the first line with each of these prefixes stays the same |
| Auth.BothKeysPresent | trading-bot/src/auth.py:38-46 | with both keys present, every token line and every date line carries the new value, all other lines stay in place, and the line count is unchanged |
| Auth.TokenInserted | trading-bot/src/auth.py:49-55 | without a token line, the token line goes right after the first `API_SECRET=` line |
| Auth.TokenAfterSecret | trading-bot/src/auth.py:49-63 | without a token line, the token line is inserted right after the first `API_SECRET=` line, and a missing date line right after it |
| Auth.DateAfterInsertedToken | trading-bot/src/auth.py:57-63 | a token line just inserted is the anchor for the date line |
| Auth.NoAnchorNoInsert | trading-bot/src/auth.py:49-63 | with no token line and no `API_SECRET=` line, neither line is added |
| Auth.DateAfterToken | trading-bot/src/auth.py:57-63 | with a token line but no date line, the date line is inserted right after the first token line |
| Auth.GrowsByAtMostTwo | trading-bot/src/auth.py:49-63 | the output never loses a line and gains at most two |
| Auth.Split | trading-bot/src/auth.py:32 | `split('\n')` gives at least one piece, and no piece contains a newline |
| Auth.Join | trading-bot/src/auth.py:67 | `'\n'.join(lines)` starts with the first line |
| Auth.SplitConcat | trading-bot/src/auth.py:32 | splitting text that starts with a newline-free `x` puts `x` in front of the first piece and keeps the other pieces |
| Auth.SplitJoin | trading-bot/src/auth.py:67 | splitting the joined lines (at least one, none holding a newline) gives the lines back |
| Auth.JoinSplit | trading-bot/src/auth.py:32-67 | joining the split lines with `'\n'` gives back the text |
| Auth.NothingMatchesKeepsFile | trading-bot/src/auth.py:32-63 | when no line carries any of the three keys, the text written back equals the text read |

## Left out

- TrailingStop.TrailingSL.ModifySl: the clock is a parameter `now`. The source reads `time.time()` again inside `place_initial_sl` on the recreate path, and there the model stores the same `now` used by the throttle comparison.
- Bot.Session.OnTicks: one `now` serves the whole batch of ticks. A tick whose handling raises ends the batch: the loop stops at its test, as the exception leaves the callback; what the ticker library does with it is not modelled.
- Bot.LoadPosition: position entries are taken to hold a numeric quantity and average price. `float(...)`/`int(...)` conversions of strings, and the `TypeError` of a missing `average_price`, are not modelled.
- MathHelpers.Round2: rounding is done on exact reals. Binary floating-point representation error in `total / quantity` is not modelled.
- MathHelpers.Upper: upper-casing covers ASCII letters only. Unicode case mapping is not modelled.
- State.StateFile.Save: a save always succeeds. JSON encoding and file write errors, and the file path, are not modelled.
- Gateway.Broker: the broker is abstract. Its answers are arbitrary, and only their success or failure and the returned ids and books are modelled. Exchange, variety, order type and validity parameters of the Kite API are not modelled.
- Bot.Session.OnConnect: the `ltp` lookup of the instrument token is a parameter. `subscribe`/`set_mode`, `on_close`, `connect` and the websocket loop are network streaming and are not modelled.
- Logging and console output are left out; they do not affect state.
- The authentication flow in auth.py (prompts, the KiteConnect session, `sys.exit`, config reload, the date check of a stored token) is interactive or clock I/O and is not modelled.
- `_update_env_file`'s file existence check, read and write are file I/O and are not modelled. The model starts from the file's text and ends with the text written back.
- The Flask server, thread start-up and command line in the scripts directory are I/O and concurrency and are not modelled. `run_bot.py` imports a `DynamicTradingBot` that bot.py does not define; it is not part of this model.
- Loading configuration from the environment (config.py) is not modelled: the values are fields of `Config`.
- Bot.RunBot, Bot.LoadPosition, TrailingStop.TrailingSL.PlaceInitialSl: these read `config.SYMBOL`, `config.QUANTITY`, `config.LOTS` and `config.PRODUCT` (bot.py:24, bot.py:30, bot.py:41-45, trailing_sl.py:14), and config.py defines none of the four. As the source stands, `load_position` raises `AttributeError` whenever it gets past the stored position to the broker's books, and `run_bot` raises it at bot.py:41 after any successful load, so no stop is ever placed. The model takes the four as given fields of `Config` (`symbol`, `quantity`, `lots`, `product`), and so describes the code as if config.py defined them.
