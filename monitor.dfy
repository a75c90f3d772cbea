/**
  One tick of the price monitor: after the fetched sample is appended to the
  history, a short-horizon check (newest against the sample before it) and a
  medium-horizon check (newest against the oldest of a full window) each may
  raise an alert; the alerts, in that order, and a leading indicator make up
  the message, and nothing is sent when no alert fired.
 */
module Monitor {
  import opened History
  import opened Change

  datatype Option<T> = None | Some(value: T)

  /** Trigger thresholds, in percent (inclusive). */
  const ShortThreshold: real := 0.3
  const MediumThreshold: real := 1.0

  datatype Horizon = Short | Medium
  datatype Direction = Up | Down

  /** One alert line: its horizon and direction, the signed change in percent
      and the price and time label of the sample it compares against. */
  datatype Alert = Alert(horizon: Horizon, direction: Direction, changePct: real,
                         refPrice: real, refTime: string)

  /** The coloured dot at the head of the message; `Blank` is the empty string. */
  datatype Indicator = Blank | Green | Red

  /** The message handed to the notifier: indicator, current price and time,
      and the alert lines in order. Formatting into text is not modelled. */
  datatype Message = Message(indicator: Indicator, price: real, alerts: seq<Alert>, time: string)

  /** Direction of a change that crossed a threshold: only a positive change is Up. */
  function DirectionOf(change: real): Direction
  {
    if change > 0.0 then Up else Down
  }

  /** The label an alert line starts with. */
  function Label(a: Alert): string
  {
    match (a.horizon, a.direction)
    case (Short, Up) => "LONG"
    case (Short, Down) => "SHORT"
    case (Medium, Up) => "STRONG LONG"
    case (Medium, Down) => "STRONG SHORT"
  }

  /** The alert a horizon raises when the newest sample of `h` moved by at
      least `threshold` percent from the reference sample `ref`. */
  function Check(h: seq<Sample>, ref: Sample, horizon: Horizon, threshold: real): Option<Alert>
    requires |h| >= 1
  {
    var change := CalculateChange(h[|h| - 1].price, ref.price);
    if Abs(change) >= threshold
    then Some(Alert(horizon, DirectionOf(change), change, ref.price, ref.time))
    else None
  }

  /** The one-minute check: needs at least two samples. */
  function ShortAlert(h: seq<Sample>): Option<Alert>
  {
    if |h| >= 2 then Check(h, h[|h| - 2], Short, ShortThreshold) else None
  }

  /** The five-minute check: only on a full window. */
  function MediumAlert(h: seq<Sample>): Option<Alert>
  {
    if |h| == Capacity then Check(h, h[0], Medium, MediumThreshold) else None
  }

  function AsSeq(o: Option<Alert>): seq<Alert>
  {
    if o.Some? then [o.value] else []
  }

  /** The alerts of one tick, short before medium. */
  function Alerts(h: seq<Sample>): seq<Alert>
  {
    AsSeq(ShortAlert(h)) + AsSeq(MediumAlert(h))
  }

  /** The indicator the alerts call for: red as soon as one of them points
      down, green when all of them point up, blank when there is none. */
  function Leading(alerts: seq<Alert>): (r: Indicator)
    ensures r == Blank <==> alerts == []
    ensures r == Red <==> exists a :: a in alerts && a.direction == Down
    ensures r == Green <==> alerts != [] && forall a :: a in alerts ==> a.direction == Up
  {
    if alerts == [] then Blank
    else if exists a :: a in alerts && a.direction == Down then Red
    else Green
  }

  /** The one-minute alert fires exactly when there are two samples and the
      newest price moved by at least 0.3 percent of the one before it,
      boundary included; a zero previous price never fires. */
  lemma ShortFiresIff(h: seq<Sample>)
    ensures ShortAlert(h).Some? <==>
              |h| >= 2 && h[|h| - 2].price != 0.0
              && Abs(h[|h| - 1].price - h[|h| - 2].price) * 100.0 >= ShortThreshold * Abs(h[|h| - 2].price)
  {
    if |h| >= 2 {
      ChangeReaches(h[|h| - 1].price, h[|h| - 2].price, ShortThreshold);
    }
  }

  /** The five-minute alert fires exactly when the window is full and the
      newest price moved by at least 1 percent of the oldest, boundary
      included; with four samples or fewer it never fires. */
  lemma MediumFiresIff(h: seq<Sample>)
    ensures MediumAlert(h).Some? <==>
              |h| == Capacity && h[0].price != 0.0
              && Abs(h[|h| - 1].price - h[0].price) * 100.0 >= MediumThreshold * Abs(h[0].price)
  {
    if |h| == Capacity {
      ChangeReaches(h[|h| - 1].price, h[0].price, MediumThreshold);
    }
  }

  /** The threshold an alert of horizon `horizon` has to reach. */
  function ThresholdOf(horizon: Horizon): real
  {
    if horizon == Short then ShortThreshold else MediumThreshold
  }

  /** At most two alerts, at most one per horizon, short before medium; each
      reached its horizon's threshold, points up exactly when its change is
      positive, and an up move against a positive reference price is a rise
      of the newest price above it. */
  lemma AlertsShape(h: seq<Sample>)
    ensures |Alerts(h)| <= 2
    ensures |Alerts(h)| == 2 ==> Alerts(h)[0].horizon == Short && Alerts(h)[1].horizon == Medium
    ensures |h| < Capacity ==> forall a :: a in Alerts(h) ==> a.horizon == Short
    ensures |h| < 2 ==> Alerts(h) == []
    ensures forall a :: a in Alerts(h) ==>
              && Abs(a.changePct) >= ThresholdOf(a.horizon)
              && (a.direction == Up <==> a.changePct > 0.0)
              && (a.direction == Up ==> a.changePct >= ThresholdOf(a.horizon))
              && (a.direction == Down ==> a.changePct <= -ThresholdOf(a.horizon))
              && (a.refPrice > 0.0 ==> (a.direction == Up <==> h[|h| - 1].price > a.refPrice))
  {
  }

  /** The label of each alert follows its horizon and the sign of its change. */
  lemma LabelsFollowSign(h: seq<Sample>)
    ensures forall a :: a in Alerts(h) ==>
              && (Label(a) == "LONG" <==> a.horizon == Short && a.changePct > 0.0)
              && (Label(a) == "SHORT" <==> a.horizon == Short && a.changePct < 0.0)
              && (Label(a) == "STRONG LONG" <==> a.horizon == Medium && a.changePct > 0.0)
              && (Label(a) == "STRONG SHORT" <==> a.horizon == Medium && a.changePct < 0.0)
  {
    AlertsShape(h);
  }

  /** The evaluation of one tick as the bot performs it: alerts are appended
      one after the other and the indicator is overwritten step by step (a
      medium Down alert always sets red, a medium Up alert sets green only if
      no indicator was set by the short check). */
  method Evaluate(h: seq<Sample>) returns (alerts: seq<Alert>, indicator: Indicator)
    ensures alerts == Alerts(h)
    ensures indicator == Leading(alerts)
    ensures |alerts| <= 2
    ensures indicator == Blank <==> alerts == []
    ensures MediumAlert(h).Some? && MediumAlert(h).value.direction == Down ==> indicator == Red
    ensures ShortAlert(h).Some? && !(MediumAlert(h).Some? && MediumAlert(h).value.direction == Down)
            ==> indicator == (if ShortAlert(h).value.direction == Up then Green else Red)
    ensures ShortAlert(h).None? && MediumAlert(h).Some? && MediumAlert(h).value.direction == Up
            ==> indicator == Green
  {
    alerts := [];
    indicator := Blank;

    if |h| >= 2 {
      var current := h[|h| - 1];
      var previous := h[|h| - 2];
      var change := CalculateChange(current.price, previous.price);
      if Abs(change) >= ShortThreshold {
        var direction;
        if change > 0.0 {
          indicator := Green;
          direction := Up;
        } else {
          indicator := Red;
          direction := Down;
        }
        alerts := alerts + [Alert(Short, direction, change, previous.price, previous.time)];
      }
    }

    if |h| == Capacity {
      var current := h[|h| - 1];
      var oldest := h[0];
      var change := CalculateChange(current.price, oldest.price);
      if Abs(change) >= MediumThreshold {
        var direction;
        if change > 0.0 {
          if indicator == Blank {
            indicator := Green;
          }
          direction := Up;
        } else {
          indicator := Red;
          direction := Down;
        }
        alerts := alerts + [Alert(Medium, direction, change, oldest.price, oldest.time)];
      }
    }
  }

  /** The send-or-stay-silent decision: a message exactly when some alert fired. */
  function Compose(current: Sample, alerts: seq<Alert>, indicator: Indicator): (r: Option<Message>)
    ensures r.Some? <==> alerts != []
    ensures r.Some? ==> (r.value.alerts == alerts && r.value.indicator == indicator
                         && r.value.price == current.price && r.value.time == current.time)
  {
    if alerts != [] then Some(Message(indicator, current.price, alerts, current.time)) else None
  }

  /** The message of a tick whose fetch succeeded with `s`, given the history
      `before` the append. */
  function Outcome(before: seq<Sample>, s: Sample): Option<Message>
  {
    var h := Push(before, s);
    Compose(s, Alerts(h), Leading(Alerts(h)))
  }

  /** What one tick hands to the notifier, given the history before it and
      the outcome of its fetch. */
  function TickOutcome(before: seq<Sample>, fetched: Option<Sample>): Option<Message>
  {
    if fetched.None? then None else Outcome(before, fetched.value)
  }

  /** The history after a tick whose fetch had outcome `fetched`. */
  function Next(before: seq<Sample>, fetched: Option<Sample>): seq<Sample>
  {
    if fetched.Some? then Push(before, fetched.value) else before
  }

  /** A tick sends a message exactly when its fetch succeeded and some alert
      fired on the window after the append; a failed fetch leaves the
      history as it was. */
  lemma SentIffAlerts(before: seq<Sample>, fetched: Option<Sample>)
    ensures TickOutcome(before, fetched).Some? <==> fetched.Some? && Alerts(Next(before, fetched)) != []
    ensures fetched.None? ==> Next(before, fetched) == before && TickOutcome(before, fetched).None?
  {
  }

  /** One iteration of the monitoring loop. `fetched` is the price sample the
      exchange returned, or None when the fetch raised; a failed fetch skips
      the tick before the history is touched. The returned message is what is
      handed to the notifier; a failed delivery does not undo the append. */
  method Tick(history: PriceHistory, fetched: Option<Sample>) returns (message: Option<Message>)
    requires history.Valid()
    modifies history
    ensures history.Valid()
    ensures history.samples == Next(old(history.samples), fetched)
    ensures message == TickOutcome(old(history.samples), fetched)
    ensures fetched.None? ==> history.samples == old(history.samples) && message.None?
  {
    message := None;
    if fetched.Some? {
      var sample := fetched.value;
      history.Append(sample);
      var alerts, indicator := Evaluate(history.samples);
      message := Compose(sample, alerts, indicator);
    }
  }

  /** The samples of the fetches that succeeded, in order. */
  function Fetched(fetches: seq<Option<Sample>>): seq<Sample>
  {
    if fetches == [] then []
    else
      var last := fetches[|fetches| - 1];
      Fetched(fetches[..|fetches| - 1]) + (if last.Some? then [last.value] else [])
  }

  /** The loop run over `fetches` from the history `start`: the history it
      leaves and, one per tick, what each tick hands to the notifier. */
  function Replay(start: seq<Sample>, fetches: seq<Option<Sample>>): (r: (seq<Sample>, seq<Option<Message>>))
    ensures |r.1| == |fetches|
  {
    if fetches == [] then (start, [])
    else
      var r := Replay(start, fetches[..|fetches| - 1]);
      var last := fetches[|fetches| - 1];
      (Next(r.0, last), r.1 + [TickOutcome(r.0, last)])
  }

  /** The history a run leaves is the start window with every successfully
      fetched sample appended in order; failed fetches leave no trace. */
  lemma {:induction false} ReplayHistory(start: seq<Sample>, fetches: seq<Option<Sample>>)
    ensures Replay(start, fetches).0 == Fill(start, Fetched(fetches))
  {
    if fetches != [] {
      var init, last := fetches[..|fetches| - 1], fetches[|fetches| - 1];
      ReplayHistory(start, init);
      var xs := Fetched(init);
      if last.Some? {
        assert Fetched(fetches) == xs + [last.value];
        assert (xs + [last.value])[..|xs|] == xs;
        calc {
          Replay(start, fetches).0;
          Push(Replay(start, init).0, last.value);
          Push(Fill(start, xs), last.value);
          Fill(start, xs + [last.value]);
        }
      } else {
        assert Fetched(fetches) == xs;
      }
    }
  }

  /** The messages of the first j ticks of a run do not depend on the ticks
      after them. */
  lemma {:induction false} ReplayPrefix(start: seq<Sample>, fetches: seq<Option<Sample>>, j: nat)
    requires j <= |fetches|
    ensures Replay(start, fetches).1[..j] == Replay(start, fetches[..j]).1
  {
    if j < |fetches| {
      var init := fetches[..|fetches| - 1];
      var r := Replay(start, init);
      ReplayPrefix(start, init, j);
      assert init[..j] == fetches[..j];
      assert (r.1 + [TickOutcome(r.0, fetches[|fetches| - 1])])[..j] == r.1[..j];
    } else {
      assert fetches[..j] == fetches;
    }
  }

  /** Tick i of a run hands over what one tick does on the history the
      first i ticks left. */
  lemma ReplayAt(start: seq<Sample>, fetches: seq<Option<Sample>>, i: nat)
    requires i < |fetches|
    ensures Replay(start, fetches).1[i] == TickOutcome(Replay(start, fetches[..i]).0, fetches[i])
  {
    ReplayPrefix(start, fetches, i + 1);
    assert fetches[..i + 1][..i] == fetches[..i];
    assert Replay(start, fetches).1[i] == Replay(start, fetches).1[..i + 1][i];
  }

  /** The first |fetches| iterations of the monitoring loop. */
  method Run(history: PriceHistory, fetches: seq<Option<Sample>>) returns (messages: seq<Option<Message>>)
    requires history.Valid()
    modifies history
    ensures history.Valid()
    ensures (history.samples, messages) == Replay(old(history.samples), fetches)
  {
    ghost var start := history.samples;
    messages := [];
    var i := 0;
    while i < |fetches|
      invariant 0 <= i <= |fetches|
      invariant history.Valid()
      invariant (history.samples, messages) == Replay(start, fetches[..i])
    {
      assert fetches[..i + 1][..i] == fetches[..i];
      var m := Tick(history, fetches[i]);
      messages := messages + [m];
      i := i + 1;
    }
    assert fetches[..|fetches|] == fetches;
  }
}
