# BTC price-alert bot: rolling window and alert decision

This project models the decision logic of a bot that polls the BTC/USDT price
once a minute, keeps the last five prices in a bounded deque, and sends a
message when the price moved by at least 0.3 % since the previous minute
(LONG / SHORT) or by at least 1.0 % across the five-minute window
(STRONG LONG / STRONG SHORT). The source is one Python file, `bot.py`.

- `history.dfy` (module `History`): a `Sample` is a price and an opaque time
  label. `PriceHistory` is the process-wide `deque(maxlen=5)`: a class whose
  `samples` field the `Append` method updates in place, evicting the oldest
  sample at capacity. `Push` is the value-level meaning of one append and
  `Fill` the meaning of many; the lemmas prove the window keeps exactly the
  last five samples in insertion order.
- `change.dfy` (module `Change`): `calculate_change` as `CalculateChange`,
  including its guard for a zero reference price, and what it means for a
  change to reach a threshold.
- `monitor.dfy` (module `Monitor`): the body of the `while True` loop of
  `monitor_price`. `ShortAlert` and `MediumAlert` are the two horizon checks and
  `Alerts` is the ordered alert list. `Leading` is the indicator the alerts
  call for. `Evaluate` is the step-by-step evaluation as the bot performs it,
  with alerts appended one by one and the indicator overwritten. `Compose` is
  the send-or-stay-silent decision. `Tick` is one loop iteration. `Run` is a
  finite number of iterations, and `Replay` is the specification of that run.
- `scenarios.dfy` (module `Scenarios`): concrete ticks covering the change
  examples, the inclusive boundaries, the full-window rule, the
  indicator override and a five-tick run.

Prices are exact reals. A fetch is an `Option<Sample>` (`None` when the
exchange call raised). An alert is a structured record: horizon, direction,
signed change, and the reference sample's price and time. It is not formatted
text. The current price used by the checks is the newest sample held, which is
the same value because the append comes before the checks (bot.py:49-61).

The leading indicator follows the code. A medium-horizon Down alert sets red
unconditionally (bot.py:87-88), even when the one-minute alert was Up. A
medium-horizon Up alert sets green only when the one-minute check set nothing
(bot.py:84-85). So "the short horizon always decides the indicator" is not what
the code does. `Leading` states the effective rule: red as soon as any alert is
Down, green when every alert is Up, blank when there is no alert. `Evaluate`
proves that this rule is what the sequential overwrites compute.

## Model

| member | source | states |
|---|---|---|
| `History.Keep` | bot.py:22 | a bounded deque holding a sequence keeps its last `Capacity` (5) elements: the length is min(length, 5) |
| `History.Push` | bot.py:49-52 | one append: the result holds at most 5 samples and ends with the new one; below capacity it is the old window plus the sample, at capacity the oldest sample is dropped and the other four keep their order |
| `History.FillKeepsLast` | bot.py:49-52 | any number of appends to a window of at most 5 samples leaves exactly the last 5 of everything appended, in insertion order |
| `History.OldestAfterAppends` | bot.py:22 | from an empty window: up to 5 appends are all kept in order; after N > 5 appends exactly 5 are held and the oldest is the sample appended at position N-5; the newest held is the last appended |
| `History.PriceHistory.constructor` | bot.py:22 | the history starts empty |
| `History.PriceHistory.Append` | bot.py:49-52 | the new window is `Push` of the old one (the capacity invariant is kept), and its length is old length + 1 below capacity, else 5 |
| `Change.CalculateChange` | bot.py:24-28 | a zero reference gives 0; an unchanged price gives 0; for a positive reference the change is positive exactly when the price rose and negative exactly when it fell |
| `Change.ChangeInverse` | bot.py:28 | for a non-zero reference, applying the percentage change to the reference gives back the current price |
| `Change.ChangeReaches` | bot.py:26-28 | abs(change) >= t (for t > 0) holds exactly when the reference is non-zero and abs(current - reference) * 100 >= t * abs(reference); a zero reference never reaches a threshold |
| `Monitor.ShortFiresIff` | bot.py:58-63 | the one-minute alert fires iff at least 2 samples are held, the previous price is non-zero, and the newest moved by at least 0.3 % of it; the boundary is included |
| `Monitor.MediumFiresIff` | bot.py:77-82 | the five-minute alert fires iff exactly 5 samples are held, the oldest price is non-zero, and the newest moved by at least 1.0 % of it; the boundary is included, and with 4 samples or fewer it never fires |
| `Monitor.AlertsShape` | bot.py:54-94 | 0, 1 or 2 alerts, short before medium; no alert with fewer than 2 samples, only short ones below 5; each alert reached its threshold; it is Up exactly when its change is positive, and against a positive reference exactly when the newest price is above it |
| `Monitor.LabelsFollowSign` | bot.py:64-89 | LONG iff short and change > 0, SHORT iff short and change < 0, STRONG LONG / STRONG SHORT likewise for the medium horizon |
| `Monitor.Leading` | bot.py:55-88 | the indicator is blank iff there is no alert, red iff some alert is Down, green iff there are alerts and all are Up |
| `Monitor.Evaluate` | bot.py:54-94 | the sequential evaluation yields exactly `Alerts(h)` and the indicator `Leading` of them; a medium Down alert forces red, otherwise a short alert's direction decides, and a lone medium Up alert gives green |
| `Monitor.Compose` | bot.py:97-110 | a message is produced iff the alert list is non-empty; it carries the alerts in order, the indicator, and the current price and time |
| `Monitor.SentIffAlerts` | bot.py:96-110 | a tick hands over a message exactly when its fetch succeeded and some alert fired on the window after the append; a failed fetch leaves the history as it was and sends nothing |
| `Monitor.Tick` | bot.py:43-117 | the new history is the old one with the fetched sample appended (`Push`), or the old one unchanged when the fetch failed, in which case nothing is handed over; the message handed over is `Outcome` on the appended window |
| `Monitor.Replay` | bot.py:41-120 | the specification of the loop over a sequence of fetch outcomes: one message slot per tick, each tick starting from the history the previous ones left |
| `Monitor.ReplayHistory` | bot.py:41-52 | the history the loop leaves is `Fill` of the start window with the successfully fetched samples, in order; failed fetches leave no trace |
| `Monitor.ReplayPrefix` | bot.py:41-120 | the messages of the first j ticks do not depend on later ticks |
| `Monitor.ReplayAt` | bot.py:41-120 | the i-th message of the loop is what a single tick hands over on the history the first i ticks left |
| `Monitor.Run` | bot.py:41-120 | running the loop body over a sequence of fetch outcomes leaves exactly the history and the messages `Replay` specifies |
| `Scenarios.ChangeExamples` | bot.py:24-28 | change(110, 100) = 10, change(90, 100) = -10, change(100, 0) = 0 |
| `Scenarios.ShortBoundary` | bot.py:58-74 | [100, 100.3] raises exactly one Short Up alert of 0.3 % against 100; [100, 100.29] raises none |
| `Scenarios.NoMediumOnFourSamples` | bot.py:77 | four samples never raise a medium alert, whatever the newest price |
| `Scenarios.MediumBoundary` | bot.py:77-94 | [100, 100, 100, 100, 101] raises a Short Up then a Medium Up alert, both of 1.0 %, and the indicator is green |
| `Scenarios.QuietWindow` | bot.py:96-110 | a window of nearly equal prices raises nothing, so nothing is sent |
| `Scenarios.MediumDownOverridesShortUp` | bot.py:84-88 | a short Up alert together with a medium Down alert gives a red indicator |
| `Scenarios.FiveTicks` | bot.py:44-105 | after ticks at 100, 100.5, 100.2, 99, the tick at 98.5 sends a red message with a SHORT line (-50/99 % against 99), then a STRONG SHORT line (-1.5 % against 100) |

## Left out

- Fetching the ticker from the exchange (bot.py:19, 44-46) is not modelled. It is a network call into a library that is not part of this model. Its result is the `fetched` parameter, with `None` for any exception it raises.
- Sending the Telegram message (bot.py:31, 107) is left out. `Tick` returns the message to hand over. A failed delivery is caught by the loop, and the already appended sample stays, which the model also does.
- Loading credentials from `.env` and the startup check (bot.py:9-16) are left out. They are configuration.
- The `asyncio` loop and its 60-second sleep (bot.py:41, 120, 123-124) are left out. `Run` covers any finite number of iterations; the infinite loop and the timing are not modelled.
- Console output with `print` (bot.py:33-39, 108, 110, 113-117) is left out.
- Number formatting (`:,.2f`, `:+.2f`), the emoji glyphs and the text layout of the message (bot.py:72-73, 92-93, 98-105) are left out. Messages and alerts are structured records, and `Label` gives the label words without emoji.
- Timestamps from `datetime.now().strftime` (bot.py:46) are opaque strings supplied with the sample.
- Floating-point rounding is left out. Prices are exact reals, so 100 → 100.3 is exactly a 0.3 % change here, while in IEEE doubles it can fall just below 0.3 and not fire.
- A ticker whose `last` field is `None` is not modelled. In the source it would be appended and then raise in `calculate_change` for later ticks. Prices here are always numbers.
