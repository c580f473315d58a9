/**
 * The `Stamp` call-budget limiter: a hard, discrete time window over four
 * fields. Times and durations are integers counting nanoseconds; time 0 is
 * Go's zero `time.Time`, so a stamp that was never initialised starts there.
 */
module RateLimit {
  import opened Wrappers

  /** One minute, in nanoseconds. */
  const Minute: int := 60_000_000_000

  /** The four fields of a stamp, as a value. */
  datatype Window = Window(hits: int, start: int, maxHits: int, period: int)

  /** The window that `Init(maxHits, period)` leaves at time `now`. */
  function Initial(maxHits: int, period: int, now: int): Window
  {
    Window(0, now, maxHits, period)
  }

  /**
   * One hit at time `now`: the next window and whether the call is admitted.
   * Past the period the window restarts with this hit as its only one;
   * inside it the count goes up and is never taken back.
   */
  function Next(w: Window, now: int): (Window, bool)
  {
    if now - w.start > w.period then (w.(start := now, hits := 1), true)
    else (w.(hits := w.hits + 1), w.hits + 1 <= w.maxHits)
  }

  /** A series of hits at the times `ts`: the final window and each verdict. */
  function Run(w: Window, ts: seq<int>): (r: (Window, seq<bool>))
    ensures |r.1| == |ts|
    decreases |ts|
  {
    if ts == [] then (w, [])
    else
      var (w', ok) := Next(w, ts[0]);
      var (last, oks) := Run(w', ts[1..]);
      (last, [ok] + oks)
  }

  /** Every time in `ts` lies in the window that began at `w.start`. */
  predicate InWindow(w: Window, ts: seq<int>)
  {
    forall i :: 0 <= i < |ts| ==> ts[i] - w.start <= w.period
  }

  /** Number of admitted calls in a series of verdicts. */
  function Admitted(oks: seq<bool>): (n: nat)
    ensures n <= |oks|
  {
    if oks == [] then 0 else (if oks[0] then 1 else 0) + Admitted(oks[1..])
  }

  /** Hits never change the budget or the period. */
  lemma {:induction false} RunKeepsLimits(w: Window, ts: seq<int>)
    ensures Run(w, ts).0.maxHits == w.maxHits && Run(w, ts).0.period == w.period
    decreases |ts|
  {
    if ts != [] {
      RunKeepsLimits(Next(w, ts[0]).0, ts[1..]);
    }
  }

  /**
   * Inside one window every hit is counted, the start never moves, and the
   * i-th hit is admitted iff the count it reaches is within the budget.
   */
  lemma {:induction false} RunInWindow(w: Window, ts: seq<int>)
    requires InWindow(w, ts)
    ensures Run(w, ts).0 == w.(hits := w.hits + |ts|)
    ensures forall i :: 0 <= i < |ts| ==> (Run(w, ts).1[i] <==> w.hits + i + 1 <= w.maxHits)
    decreases |ts|
  {
    if ts != [] {
      var w' := Next(w, ts[0]).0;
      assert w' == w.(hits := w.hits + 1);
      assert InWindow(w', ts[1..]) by {
        forall i | 0 <= i < |ts[1..]| ensures ts[1..][i] - w'.start <= w'.period {
          assert ts[1..][i] == ts[i + 1];
        }
      }
      RunInWindow(w', ts[1..]);
      forall i | 1 <= i < |ts| ensures Run(w, ts).1[i] == Run(w', ts[1..]).1[i - 1] {
      }
    }
  }

  /**
   * From `Init(m, p)`, the first `m` hits of a window are admitted and
   * every later one in that window is refused.
   */
  lemma BudgetAfterInit(m: int, p: int, t0: int, ts: seq<int>)
    requires forall i :: 0 <= i < |ts| ==> ts[i] - t0 <= p
    ensures forall i :: 0 <= i < |ts| ==> (Run(Initial(m, p, t0), ts).1[i] <==> i < m)
    ensures Run(Initial(m, p, t0), ts).0.hits == |ts|
  {
    RunInWindow(Initial(m, p, t0), ts);
  }

  /**
   * A refused hit poisons the window: every later hit in the same window is
   * refused too.
   */
  lemma DenialPersists(w: Window, t: int, ts: seq<int>)
    requires !Next(w, t).1
    requires InWindow(w, ts)
    ensures forall i :: 0 <= i < |ts| ==> !Run(Next(w, t).0, ts).1[i]
  {
    var w' := Next(w, t).0;
    assert w' == w.(hits := w.hits + 1);
    RunInWindow(w', ts);
  }

  /**
   * However many hits arrive inside one window, the number admitted is the
   * budget left (never negative), or all of them if fewer arrive.
   */
  lemma {:induction false} AdmittedInWindow(w: Window, ts: seq<int>)
    requires InWindow(w, ts)
    ensures var left := if w.maxHits - w.hits < 0 then 0 else w.maxHits - w.hits;
      Admitted(Run(w, ts).1) == if |ts| < left then |ts| else left
    decreases |ts|
  {
    if ts != [] {
      var w' := Next(w, ts[0]).0;
      assert w' == w.(hits := w.hits + 1);
      assert InWindow(w', ts[1..]) by {
        forall i | 0 <= i < |ts[1..]| ensures ts[1..][i] - w'.start <= w'.period {
          assert ts[1..][i] == ts[i + 1];
        }
      }
      AdmittedInWindow(w', ts[1..]);
      assert Run(w, ts).1 == [Next(w, ts[0]).1] + Run(w', ts[1..]).1;
      assert ([Next(w, ts[0]).1] + Run(w', ts[1..]).1)[1..] == Run(w', ts[1..]).1;
    }
  }

  /** Times strictly increase along `ts`. */
  predicate Increasing(ts: seq<int>)
  {
    forall i, j :: 0 <= i < j < |ts| ==> ts[i] < ts[j]
  }

  /**
   * A stamp whose period is zero, as a never-initialised stamp is, restarts
   * its window on every hit that comes strictly later, so it admits them all.
   */
  lemma {:induction false} ZeroPeriodAdmitsAll(w: Window, ts: seq<int>)
    requires w.period == 0
    requires Increasing(ts)
    requires ts != [] ==> ts[0] > w.start
    ensures forall i :: 0 <= i < |ts| ==> Run(w, ts).1[i]
    decreases |ts|
  {
    if ts != [] {
      var w' := Next(w, ts[0]).0;
      assert w' == w.(start := ts[0], hits := 1);
      assert Increasing(ts[1..]) by {
        forall i, j | 0 <= i < j < |ts[1..]| ensures ts[1..][i] < ts[1..][j] {
          assert ts[1..][i] == ts[i + 1] && ts[1..][j] == ts[j + 1];
        }
      }
      if |ts| > 1 {
        assert ts[1..][0] == ts[1];
      }
      ZeroPeriodAdmitsAll(w', ts[1..]);
      forall i | 1 <= i < |ts| ensures Run(w, ts).1[i] == Run(w', ts[1..]).1[i - 1] {
      }
    }
  }

  /**
   * What `json.Unmarshal` manages to decode from a saved stamp: one optional
   * value per field. A syntax error decodes nothing; a number field of the
   * wrong JSON type is skipped while the others are still decoded; a start
   * time that fails to parse stops decoding, so the fields after it in the
   * file keep their old values too.
   */
  datatype StampJson = StampJson(hits: Option<int>, start: Option<int>, maxHits: Option<int>, period: Option<int>)

  /** The outcome of opening and reading a saved stamp file. */
  datatype StampFile = OpenFailed | ReadFailed | Contents(json: StampJson)

  /** Overlays the decoded fields on a window, leaving the others as they were. */
  function Overlay(w: Window, j: StampJson): Window
  {
    Window(
      if j.hits.Some? then j.hits.value else w.hits,
      if j.start.Some? then j.start.value else w.start,
      if j.maxHits.Some? then j.maxHits.value else w.maxHits,
      if j.period.Some? then j.period.value else w.period)
  }

  /** What `Save` writes: all four fields. */
  function Encode(w: Window): (j: StampJson)
    ensures j.hits.Some? && j.start.Some? && j.maxHits.Some? && j.period.Some?
  {
    StampJson(Some(w.hits), Some(w.start), Some(w.maxHits), Some(w.period))
  }

  /** A saved stamp that reads back intact restores exactly the saved window. */
  lemma LoadAfterSave(any: Window, w: Window)
    ensures Overlay(any, Encode(w)) == w
  {
  }

  /** The limiter for one upstream API. */
  class Stamp {
    var hits: int
    var start: int
    var maxHits: int
    var period: int

    /** The four fields, as a value. */
    function State(): Window
      reads this
    {
      Window(hits, start, maxHits, period)
    }

    /** A stamp as Go zero-initialises it: every field zero. */
    constructor ()
      ensures State() == Window(0, 0, 0, 0)
    {
      hits, start, maxHits, period := 0, 0, 0, 0;
    }

    /** `Init`: an empty window opening now with the given budget and period. */
    method Init(maxHits: int, period: int, now: int)
      modifies this
      ensures State() == Initial(maxHits, period, now)
      ensures this.hits == 0 && this.start == now
      ensures this.maxHits == maxHits && this.period == period
    {
      this.maxHits := maxHits;
      this.period := period;
      this.start := now;
      this.hits := 0;
    }

    /** `Hit`: registers one call at time `now` and says whether it may go ahead. */
    method Hit(now: int) returns (ok: bool)
      modifies this
      ensures (State(), ok) == Next(old(State()), now)
      ensures maxHits == old(maxHits) && period == old(period)
      ensures now - old(start) > period ==> ok && hits == 1 && start == now
      ensures now - old(start) <= period ==>
        start == old(start) && hits == old(hits) + 1 && (ok <==> hits <= maxHits)
    {
      if now - start > period {
        start := now;
        hits := 1;
        return true;
      }
      hits := hits + 1;
      if hits > maxHits {
        return false;
      }
      return true;
    }

    /** `Save`: the record written to the stamp file. */
    function Saved(): (j: StampJson)
      reads this
      ensures Overlay(Window(0, 0, 0, 0), j) == State()
    {
      Encode(State())
    }

    /**
     * `Load`: restores the stamp from its file. When the file cannot be
     * opened or read the stamp is initialised instead and no error escapes;
     * otherwise every field that decodes overwrites the current one and the
     * rest stay as they were, whatever the decoding error.
     */
    method Load(file: StampFile, maxHits: int, period: int, now: int)
      modifies this
      ensures !file.Contents? ==> State() == Initial(maxHits, period, now)
      ensures file.Contents? ==> State() == Overlay(old(State()), file.json)
    {
      match file
      case OpenFailed =>
        Init(maxHits, period, now);
      case ReadFailed =>
        Init(maxHits, period, now);
      case Contents(j) =>
        if j.hits.Some? { hits := j.hits.value; }
        if j.start.Some? { start := j.start.value; }
        if j.maxHits.Some? { this.maxHits := j.maxHits.value; }
        if j.period.Some? { this.period := j.period.value; }
    }
  }
}
