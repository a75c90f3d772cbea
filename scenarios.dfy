/**
  Concrete ticks: the percentage-change examples, the inclusive threshold
  boundaries, the full-window requirement and a five-tick run.
 */
module Scenarios {
  import opened History
  import opened Change
  import opened Monitor

  lemma ChangeExamples()
    ensures CalculateChange(110.0, 100.0) == 10.0
    ensures CalculateChange(90.0, 100.0) == -10.0
    ensures CalculateChange(100.0, 0.0) == 0.0
  {
  }

  /** A rise of exactly 0.3 percent raises a LONG alert; 0.29 percent does not. */
  lemma ShortBoundary(t0: string, t1: string)
    ensures Alerts([Sample(100.0, t0), Sample(100.3, t1)]) == [Alert(Short, Up, 0.3, 100.0, t0)]
    ensures Alerts([Sample(100.0, t0), Sample(100.29, t1)]) == []
  {
  }

  /** Four samples never raise a medium alert, however large the move. */
  lemma NoMediumOnFourSamples(t: string, p: real)
    ensures forall a :: a in Alerts([Sample(100.0, t), Sample(100.0, t), Sample(100.0, t), Sample(p, t)])
                      ==> a.horizon == Short
  {
  }

  /** A full window that rose by exactly 1 percent raises both alerts, the
      one-minute alert first, and the indicator is green. */
  lemma MediumBoundary(t0: string, t3: string, t4: string)
    ensures var h := [Sample(100.0, t0), Sample(100.0, t0), Sample(100.0, t0), Sample(100.0, t3), Sample(101.0, t4)];
            Alerts(h) == [Alert(Short, Up, 1.0, 100.0, t3), Alert(Medium, Up, 1.0, 100.0, t0)]
            && Leading(Alerts(h)) == Green
  {
  }

  /** A window of nearly equal prices raises nothing, so nothing is sent. */
  lemma QuietWindow(t: string)
    ensures Outcome([Sample(100.0, t), Sample(100.1, t), Sample(100.0, t), Sample(100.2, t)], Sample(100.1, t)) == None
  {
  }

  /** A short Up alert together with a medium Down alert shows red. */
  lemma MediumDownOverridesShortUp(t: string)
    ensures var h := [Sample(100.0, t), Sample(99.0, t), Sample(98.0, t), Sample(97.0, t), Sample(98.0, t)];
            |Alerts(h)| == 2 && Alerts(h)[0].direction == Up && Alerts(h)[1].direction == Down
            && Leading(Alerts(h)) == Red
  {
  }

  /** Five ticks at 100, 100.5, 100.2, 99 and 98.5: the last one sends a red
      message holding a SHORT line against 99 and then a STRONG SHORT line
      against 100 (a fall of 1.5 percent). */
  lemma FiveTicks(t0: string, t1: string, t2: string, t3: string, t4: string)
    ensures var xs := [Sample(100.0, t0), Sample(100.5, t1), Sample(100.2, t2), Sample(99.0, t3)];
            var short := Alert(Short, Down, -50.0 / 99.0, 99.0, t3);
            var medium := Alert(Medium, Down, -1.5, 100.0, t0);
            Fill([], xs) == xs
            && Outcome(xs, Sample(98.5, t4)) == Some(Message(Red, 98.5, [short, medium], t4))
            && Label(short) == "SHORT" && Label(medium) == "STRONG SHORT"
  {
    var xs := [Sample(100.0, t0), Sample(100.5, t1), Sample(100.2, t2), Sample(99.0, t3)];
    OldestAfterAppends(xs);
    var h := Push(xs, Sample(98.5, t4));
    var short := Alert(Short, Down, -50.0 / 99.0, 99.0, t3);
    assert h == xs + [Sample(98.5, t4)];
    assert CalculateChange(98.5, 99.0) == -50.0 / 99.0;
    assert CalculateChange(98.5, 100.0) == -1.5;
    assert Alerts(h) == [short, Alert(Medium, Down, -1.5, 100.0, t0)];
    assert short in Alerts(h);
  }
}
