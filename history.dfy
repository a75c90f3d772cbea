/**
  The rolling price history of the bot: a first-in first-out window that
  holds at most `Capacity` samples, like a Python `deque(maxlen=5)`.
  Index 0 is the oldest sample held, the last index the newest.
 */
module History {

  /** The window keeps the last five samples (one per minute). */
  const Capacity: nat := 5

  /** A price sample. The time is an opaque display label ("HH:MM:SS"). */
  datatype Sample = Sample(price: real, time: string)

  /** The last `Capacity` elements of `t`: what a bounded deque holding `t` keeps. */
  function Keep(t: seq<Sample>): (r: seq<Sample>)
    ensures |r| == if |t| <= Capacity then |t| else Capacity
  {
    if |t| <= Capacity then t else t[|t| - Capacity..]
  }

  /** The window after one append: the new sample goes last and, once the
      window is full, the oldest sample is evicted. */
  function Push(h: seq<Sample>, s: Sample): (r: seq<Sample>)
    ensures 1 <= |r| <= Capacity && r[|r| - 1] == s
    ensures |h| < Capacity ==> r == h + [s]
    ensures |h| == Capacity ==> r == h[1..] + [s]
  {
    Keep(h + [s])
  }

  /** The window after appending every sample of `xs`, in order, to `h`. */
  function Fill(h: seq<Sample>, xs: seq<Sample>): seq<Sample>
  {
    if xs == [] then h else Push(Fill(h, xs[..|xs| - 1]), xs[|xs| - 1])
  }

  /** Trimming before an append does not change what a bounded deque keeps. */
  lemma KeepThenAppend(t: seq<Sample>, s: Sample)
    ensures Keep(Keep(t) + [s]) == Keep(t + [s])
  {
  }

  /** Any number of appends to a window keeps exactly the last `Capacity`
      samples of everything appended, in insertion order. */
  lemma {:induction false} FillKeepsLast(h: seq<Sample>, xs: seq<Sample>)
    requires |h| <= Capacity
    ensures Fill(h, xs) == Keep(h + xs)
  {
    if xs == [] {
      assert h + xs == h;
    } else {
      var init, x := xs[..|xs| - 1], xs[|xs| - 1];
      assert xs == init + [x];
      FillKeepsLast(h, init);
      KeepThenAppend(h + init, x);
      calc {
        Fill(h, xs);
        Push(Fill(h, init), x);
        Keep(Keep(h + init) + [x]);
        Keep(h + init + [x]);
        { assert h + init + [x] == h + xs; }
        Keep(h + xs);
      }
    }
  }

  /** Starting from the empty window: at most `Capacity` samples are held,
      the newest is the last one appended, and after N > Capacity appends
      the oldest held sample is the one appended at position N - Capacity. */
  lemma OldestAfterAppends(xs: seq<Sample>)
    ensures |xs| <= Capacity ==> Fill([], xs) == xs
    ensures |xs| > Capacity ==> |Fill([], xs)| == Capacity && Fill([], xs)[0] == xs[|xs| - Capacity]
    ensures xs != [] ==> Fill([], xs)[|Fill([], xs)| - 1] == xs[|xs| - 1]
  {
    FillKeepsLast([], xs);
    assert [] + xs == xs;
  }

  /** The process-wide history, updated in place once per successful tick. */
  class PriceHistory {
    var samples: seq<Sample>

    ghost predicate Valid()
      reads this
    {
      |samples| <= Capacity
    }

    /** The history starts empty. */
    constructor ()
      ensures Valid() && samples == []
    {
      samples := [];
    }

    /** Appends `s`; at capacity the oldest sample is dropped first. */
    method Append(s: Sample)
      requires Valid()
      modifies this
      ensures Valid()
      ensures samples == Push(old(samples), s)
      ensures |samples| == if |old(samples)| < Capacity then |old(samples)| + 1 else Capacity
    {
      if |samples| == Capacity {
        samples := samples[1..];
      }
      samples := samples + [s];
    }
  }
}
