# Stock dip alert engine

A Dafny model of the alert engine of a Telegram stock-dip bot (`stock_bot.py`).
The bot keeps a watchlist of ticker symbols, each with a dip threshold in percent and
a display name. Every 15 minutes, and on the `/check` command, it fetches a quote for
every watched symbol. It sends an alert when the day's fall reaches the threshold, the
volume is more than 1.2 times the average, and the symbol has not alerted in the last
four hours. `/add` and `/remove` edit the watchlist. An `is_checking` flag stops a manual
check and the scheduled check from sweeping at the same time.

Modules, leaves first:

- `Wrappers` (`wrappers.dfy`): `Option`.
- `Text` (`text.dfy`): ASCII upper-casing of a symbol and the space join of a name.
- `AlertPolicy` (`alert_policy.dfy`): the dip decision (`is_significant_dip`) and the
  severity tiers of an alert, as pure functions.
- `WatchedStocks` (`watched_stocks.dfy`): the watchlist as an insertion-ordered
  dictionary (a key sequence plus a map), the default watchlist, and the effect of
  `/add` and `/remove` as functions.
- `Sweep` (`sweep.dfy`): what one pass over the watchlist does to the per-symbol history
  (`price_history`) and which alerts it sends. This is written as a fold over the keys in
  watchlist order, and the lemmas relate the fold to a per-symbol description.
- `Monitor` (`monitor.dfy`): class `StockDipMonitor`. `CheckStocks` is the loop that
  updates the history in place, one symbol at a time through `CheckSymbol` (the loop body),
  and it is proved equal to the `Sweep` functions.
- `Bot` (`bot.dfy`): class `TelegramStockBot`, with the watchlist commands and the
  `isChecking` guard around the manual and scheduled checks.

Modelling choices:

- Time is an integer number of seconds. Each sweep takes a single `now`, and the
  cooldown is 14400 s.
- Percent changes, thresholds and prices are exact `real`s, and volumes are `int`s.
- The market-data fetch is an input map from symbol to `Option<Observation>`. `None`
  stands for both "no data" and "the fetch raised", because the fetch function catches
  its own exceptions and returns `None` for both. A symbol missing from the map is a
  failed fetch.
- Python's `float()` on the threshold argument is a parameter
  `parseFloat: string -> Option<real>`. `None` stands for `ValueError`.
- Alert delivery is not modelled. An alert counts as sent once it is handed to the
  messenger, and it is stamped whether or not delivery succeeded, as in the source.
- The sweep returns the alerts it handed to `send_alert` (`check_stocks` returns
  nothing). Like `check_stocks`, it keeps no error list or counters. The
  flag is an ordinary field that is read and then set, not an atomic guard.

## Model

| member | source | states |
|---|---|---|
| `Text.Upper` | stock_bot.py:254 | the result has the input's length, capitalises each ASCII letter in place and contains no lower-case ASCII letter |
| `Text.UpperIdempotent` | stock_bot.py:268 | normalising a symbol twice is normalising it once, so a symbol stored upper-cased is found again under its own spelling |
| `Text.JoinWordsSnoc` | stock_bot.py:257 | joining one more word appends a space and that word; with the empty and one-word cases this fixes the joined name word by word, in order |
| `Text.JoinWords` | stock_bot.py:257 | the joined name is empty for no words, is the word itself for one word, starts with the first word, and is as long as the words plus one space between each pair |
| `AlertPolicy.VolumeRatio` | stock_bot.py:132 | with a positive average the ratio times the average is the volume; otherwise the ratio is 1 |
| `AlertPolicy.VolumeRatioAboveBar` | stock_bot.py:132-136 | the ratio exceeds 1.2 exactly when the average is positive and 10 x volume > 12 x average, so a zero average never confirms |
| `AlertPolicy.InCooldown` | stock_bot.py:133-135 | with no previous alert nothing is suppressed; with a previous alert at `t`, suppression holds exactly while `now < t + 4h` |
| `AlertPolicy.IsSignificantDip` | stock_bot.py:128-137 | it fires if and only if the change is at or below minus the threshold, the volume is confirmed, and there is no alert less than 4 h before `now` |
| `AlertPolicy.NoDipNoAlert` | stock_bot.py:131-137 | a change above minus the threshold never fires, whatever the volume and the alert history |
| `AlertPolicy.CooldownWindow` | stock_bot.py:133-136 | with dip and volume confirmed and a previous alert at `last`, it fires exactly when `now >= last + 4h` |
| `AlertPolicy.Classify` | stock_bot.py:142-147 | Major exactly when the change is <= -8, Significant exactly when -8 < change <= -5, Detected exactly when the change is > -5 |
| `AlertPolicy.ClassifyMonotone` | stock_bot.py:142-147 | a deeper fall never gets a milder tier |
| `AlertPolicy.PolicyExamples` | stock_bot.py:128-147 | worked cases: -4.5 % at ratio 1.5 fires as Detected; -9 % at ratio 1.5 fires as Major; ratio 1.1 does not fire; 3 h after an alert it does not fire, 4 h 1 s after it fires |
| `WatchedStocks.Without` | stock_bot.py:270 | drops exactly the given key, keeps every other key, and is the identity when the key is absent |
| `WatchedStocks.WithoutNoDup` | stock_bot.py:270 | removing a key from distinct keys leaves distinct keys |
| `WatchedStocks.WithoutKeepsOrder` | stock_bot.py:270 | in distinct keys, removing the key at position p leaves the keys before p followed by the keys after p, so the other keys keep their insertion order |
| `WatchedStocks.Put` | stock_bot.py:258 | the map gets the new entry, the watchlist stays well formed, and the old keys keep their order as a prefix |
| `WatchedStocks.Delete` | stock_bot.py:270 | the map loses exactly that key, the remaining keys keep their insertion order, the watchlist stays well formed, and deleting an absent key changes nothing |
| `WatchedStocks.DefaultStocks` | stock_bot.py:69-77 | the default watchlist is well formed, has seven symbols, and every threshold is positive |
| `WatchedStocks.AddStock` | stock_bot.py:250-262 | fewer than 3 arguments or an unparsable threshold leave the watchlist unchanged, with the matching reply; otherwise the upper-cased symbol maps to the parsed threshold and the space-joined name, no other entry changes, and existing keys keep their order |
| `WatchedStocks.RemoveStock` | stock_bot.py:264-274 | no arguments or an absent upper-cased symbol leave the watchlist unchanged, with the matching reply; otherwise exactly that symbol is removed, and the remaining keys keep their insertion order |
| `WatchedStocks.AddThenRemove` | stock_bot.py:250-274 | removing a symbol that `/add` has just introduced restores the watchlist exactly, key order included, in whatever case the symbol is written |
| `Sweep.Visit` | stock_bot.py:184-194 | processing one symbol leaves every other symbol's record as it was; a failed fetch changes nothing; a successful one records the data, stamps `now` when the symbol fires, and otherwise keeps the previous alert time |
| `Sweep.Alerted` | stock_bot.py:191-193 | processing one symbol sends at most one alert; it sends one exactly when the fetch succeeded and the symbol fires, and that alert names the symbol, carries its data and has its severity |
| `Sweep.SweepHistory` | stock_bot.py:180-202 | the in-order pass leaves the records of unwatched symbols as they were, and it only creates records for watched symbols whose fetch succeeded |
| `Sweep.FiredAlerts` | stock_bot.py:187-195 | no more alerts than watched symbols, each for a watched symbol and carrying exactly the data fetched for it |
| `Sweep.SweepHistoryAt` | stock_bot.py:180-202 | after the in-order sweep, each symbol's record is what processing that symbol alone from the starting history gives, and symbols outside the watchlist are untouched |
| `Sweep.SweepEffect` | stock_bot.py:182-194 | a failed fetch or an unwatched symbol leaves the record as it was; a successful fetch records the data, sets the alert time to `now` if the symbol fired, and otherwise keeps the previous alert time |
| `Sweep.SweepAlerts` | stock_bot.py:182-195 | the alerts the in-order pass sends, each symbol judged against the history as the pass has left it: no more than the watched symbols, each for a watched symbol with the data fetched for it; `SweepAlertsAreFired` equates them with `FiredAlerts` |
| `Sweep.SweepAlertsAreFired` | stock_bot.py:187-195 | the alerts sent in order equal the alerts decided against the history as it was at the start of the sweep |
| `Sweep.FiredAlertsExactly` | stock_bot.py:187-195 | an alert is sent for a symbol if and only if it is watched and fires; the alert carries the symbol's data and severity; no symbol gets two alerts in one sweep |
| `Sweep.CooldownHolds` | stock_bot.py:191-194 | a symbol alerted less than 4 h before `now` gets no alert in the sweep and keeps its alert time |
| `Sweep.NoDoubleAlert` | stock_bot.py:180-202 | after a sweep at `now1` alerts a symbol, a later sweep at `now2 < now1 + 4h`, with any watchlist and any fetches, sends no alert for it, and the symbol keeps the alert time `now1` |
| `Monitor.StockDipMonitor.constructor` | stock_bot.py:61-66 | a new monitor has the given watchlist and an empty history |
| `Monitor.StockDipMonitor.CheckSymbol` | stock_bot.py:184-194 | the loop body for one symbol updates the history in place exactly as `Sweep.Visit` describes and sends exactly the alerts `Sweep.Alerted` describes, leaving the watchlist alone |
| `Monitor.StockDipMonitor.CheckStocks` | stock_bot.py:180-202 | the loop over a snapshot of the watchlist leaves the watchlist as it was, leaves the history equal to the sweep fold, and returns exactly the alerts that fired, in watchlist order |
| `Bot.TelegramStockBot.constructor` | stock_bot.py:206-210 | a new bot is idle, over a fresh monitor with the given watchlist |
| `Bot.TelegramStockBot.AddStockCommand` | stock_bot.py:250-262 | the watchlist and the reply are those of `AddStock`, and no symbol's history changes |
| `Bot.TelegramStockBot.RemoveStockCommand` | stock_bot.py:264-274 | the watchlist and the reply are those of `RemoveStock`, and the removed symbol keeps its history and cooldown |
| `Bot.TelegramStockBot.ManualCheckCommand` | stock_bot.py:276-286 | while a check is running it is refused and changes nothing; otherwise it runs one sweep, returns the fired alerts, and lowers the flag again |
| `Bot.TelegramStockBot.ScheduledCheck` | stock_bot.py:288-297 | it is skipped while a check is running; otherwise it runs the same sweep, and the flag is lowered on completion |
| `Bot.TelegramStockBot.OverlappingChecks` | stock_bot.py:276-297 | a scheduled tick during a manual check is refused, leaving the monitor untouched by `ScheduledCheck`'s contract, so the final history is exactly the manual sweep followed by the later tick's sweep; after the manual check has swept and released the flag, the next tick sweeps over the history it left behind, and within 4 h it alerts no symbol the manual check alerted |

## Left out

- Fetching quotes (`get_stock_data`, stock_bot.py:94-126) is left out: it makes network calls, computes with pandas and rounds floats. Its outcome is an input to the sweep.
- Alert text (`generate_alert_message` apart from its severity branch, stock_bot.py:149-167) and delivery (`send_alert`, stock_bot.py:169-178) are left out. They are formatting and a foreign API call, and the delivery result is ignored by the source.
- Loading the watchlist from the environment or a JSON file (stock_bot.py:79-88) is left out; only the default watchlist is kept. `save_watched_stocks` (stock_bot.py:90-92) only reassigns the field and logs, which the commands do directly.
- The `/start`, `/status` and `/list` commands (stock_bot.py:220-248) are left out: they only send replies.
- The periodic loop, bot start-up and shutdown, and `main` (stock_bot.py:299-368) are left out: they are sleeps, cancellation and process lifecycle.
- Bot.TelegramStockBot.ManualCheckCommand: the source awaits a reply between testing and setting `is_checking` (stock_bot.py:277-281), so two checks can both pass the test. The model treats the test and the set as one step and does not claim race-freedom.
- Monitor.StockDipMonitor.CheckStocks: it iterates a snapshot of the watchlist. The source iterates the live dictionary, which raises if a command changes its size during one of the sweep's awaits. The source also re-reads a symbol's threshold when it reaches that symbol (stock_bot.py:129), so an /add that overwrites an existing symbol mid-sweep changes the threshold used for symbols still to come; the model uses the thresholds of the snapshot.
- Monitor.StockDipMonitor.CheckStocks: it uses one `now` for the whole sweep. The source reads the clock separately for the cooldown test and for the stamp (stock_bot.py:134, 194).
- The one-second pause between symbols (stock_bot.py:197) is left out, and so is cancellation of a sweep at that pause.
- Float semantics are left out: rounding, NaN and infinities, and the last-bit behaviour of `volume / avg_volume` near 1.2. Comparisons are on exact values.
- Text.Upper: it only capitalises ASCII letters. Python's `str.upper` also maps other letters, some to several characters.
- WatchedStocks.AddStock: the syntax that Python's `float()` accepts is not modelled; it is an input function.
