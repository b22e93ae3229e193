/** The rolling latency window of Orders and its published p95. Times are exact, in seconds. */
module LatencyWindow {

  const WINDOW_SECONDS := 300.0
  const MAX_SAMPLES := 5_000

  /** A finished checkout: when, by the monotone clock and the wall clock, and how long it took. */
  datatype Sample = Sample(at: real, wall: real, seconds: real)

  // ----- The window of a whole history -----

  /** The samples within the window, in order. */
  function Fresh(samples: seq<Sample>, now: real): seq<Sample> {
    if samples == [] then []
    else
      var last := samples[|samples| - 1];
      Fresh(samples[..|samples| - 1], now) + if now - last.at <= WINDOW_SECONDS then [last] else []
  }

  /** The newest `MAX_SAMPLES`. */
  function Newest(samples: seq<Sample>): seq<Sample> {
    if |samples| <= MAX_SAMPLES then samples else samples[|samples| - MAX_SAMPLES..]
  }

  function Window(samples: seq<Sample>, now: real): seq<Sample> {
    Newest(Fresh(samples, now))
  }

  ghost predicate Ordered(samples: seq<Sample>, now: real) {
    && (forall i, j | 0 <= i <= j < |samples| :: samples[i].at <= samples[j].at)
    && (forall i | 0 <= i < |samples| :: samples[i].at <= now)
  }

  /** Where the window starts in an ordered history. */
  ghost predicate CutAt(samples: seq<Sample>, now: real, i: nat) {
    && i <= |samples|
    && (forall k | 0 <= k < i :: now - samples[k].at > WINDOW_SECONDS)
    && (forall k | i <= k < |samples| :: now - samples[k].at <= WINDOW_SECONDS)
  }

  /** In an ordered history the samples within the window are its end. */
  lemma {:induction false} FreshIsSuffix(samples: seq<Sample>, now: real, i: nat)
    requires CutAt(samples, now, i)
    ensures Fresh(samples, now) == samples[i..]
  {
    if samples != [] {
      var n := |samples| - 1;
      if i <= n {
        FreshIsSuffix(samples[..n], now, i);
        assert samples[..n][i..] + [samples[n]] == samples[i..];
      } else {
        FreshIsSuffix(samples[..n], now, n);
        assert samples[..n][n..] == samples[i..];
      }
    }
  }

  lemma {:induction false} CutExists(samples: seq<Sample>, now: real) returns (i: nat)
    requires Ordered(samples, now)
    ensures CutAt(samples, now, i)
  {
    if samples == [] || now - samples[|samples| - 1].at > WINDOW_SECONDS {
      i := |samples|;
    } else {
      i := CutExists(samples[..|samples| - 1], now);
      assert forall k | 0 <= k < |samples| - 1 :: samples[..|samples| - 1][k] == samples[k];
    }
  }

  /** Where the window starts, given where the fresh samples start. */
  function StartOf(cut: nat, length: nat): (i: nat)
    requires cut <= length
    ensures i <= length
  {
    if length - cut <= MAX_SAMPLES then cut else length - MAX_SAMPLES
  }

  lemma WindowIsSuffix(samples: seq<Sample>, now: real, cut: nat)
    requires CutAt(samples, now, cut)
    ensures Window(samples, now) == samples[StartOf(cut, |samples|)..]
  {
    FreshIsSuffix(samples, now, cut);
  }

  /** The list `w` is the end of the history that was recorded within the last 300 seconds, or its newest 5000
      samples when there are more. */
  ghost predicate IsWindow(history: seq<Sample>, now: real, w: seq<Sample>) {
    exists i ::
      && 0 <= i <= |history| && w == history[i..] && |w| <= 5000
      && (forall k | i <= k < |history| :: now - history[k].at <= 300.0)
      && (forall k | 0 <= k < i :: |w| == 5000 || now - history[k].at > 300.0)
  }

  lemma WindowMeans(history: seq<Sample>, now: real)
    requires Ordered(history, now)
    ensures IsWindow(history, now, Window(history, now))
  {
    var cut := CutExists(history, now);
    WindowIsSuffix(history, now, cut);
    var i := StartOf(cut, |history|);
    assert Window(history, now) == history[i..];
  }

  /** The window of an end of the history that still covers the window. */
  lemma WindowOfSuffix(samples: seq<Sample>, now: real, from: nat, i: nat)
    requires CutAt(samples, now, i) && from <= StartOf(i, |samples|)
    ensures Window(samples[from..], now) == Window(samples, now)
  {
    var kept := samples[from..];
    var cut: nat := if i <= from then 0 else i - from;
    forall k | cut <= k < |kept| ensures now - kept[k].at <= WINDOW_SECONDS {
      assert kept[k] == samples[from + k];
    }
    assert CutAt(kept, now, cut);
    WindowIsSuffix(kept, now, cut);
    WindowIsSuffix(samples, now, i);
    assert samples[from..][StartOf(cut, |kept|)..] == samples[from + StartOf(cut, |kept|)..];
  }

  lemma CutsGrow(samples: seq<Sample>, before: real, i: nat, longer: seq<Sample>, now: real, j: nat)
    requires CutAt(samples, before, i) && samples <= longer && CutAt(longer, now, j) && before <= now
    ensures i <= j
  {
    assert forall k | 0 <= k < i :: now - longer[k].at > WINDOW_SECONDS;
    if j < |longer| {
      assert now - longer[j].at <= WINDOW_SECONDS;
    }
  }

  /** Pruning a pruned list later is pruning the whole history later, provided the clock does not run backwards. */
  lemma PruneTwice(samples: seq<Sample>, before: real, now: real)
    requires Ordered(samples, before) && before <= now
    ensures Window(Window(samples, before), now) == Window(samples, now)
  {
    var i := CutExists(samples, before);
    var j := CutExists(samples, now);
    WindowIsSuffix(samples, before, i);
    CutsGrow(samples, before, i, samples, now, j);
    WindowOfSuffix(samples, now, StartOf(i, |samples|), j);
  }

  /** A sample added to the pruned list ends up in the window of the longer history. */
  lemma AddThenPrune(samples: seq<Sample>, before: real, sample: Sample)
    requires Ordered(samples, before) && before <= sample.at
    ensures Window(Window(samples, before) + [sample], sample.at) == Window(samples + [sample], sample.at)
    ensures Ordered(samples + [sample], sample.at)
  {
    var i := CutExists(samples, before);
    var longer := samples + [sample];
    var from := StartOf(i, |samples|);
    WindowIsSuffix(samples, before, i);
    assert longer[from..] == samples[from..] + [sample];
    var j := CutExists(longer, sample.at);
    CutsGrow(samples, before, i, longer, sample.at, j);
    WindowOfSuffix(longer, sample.at, from, j);
  }

  // ----- Nearest rank -----

  function CountUpTo(values: seq<real>, x: real): nat {
    if values == [] then 0 else (if values[0] <= x then 1 else 0) + CountUpTo(values[1..], x)
  }

  function Insert(x: real, values: seq<real>): seq<real> {
    if values == [] || x <= values[0] then [x] + values else [values[0]] + Insert(x, values[1..])
  }

  /** `sorted`. */
  function Sorted(values: seq<real>): (r: seq<real>)
    ensures |r| == |values|
  {
    if values == [] then [] else InsertLength(values[0], Sorted(values[1..])); Insert(values[0], Sorted(values[1..]))
  }

  lemma {:induction false} InsertLength(x: real, values: seq<real>)
    ensures |Insert(x, values)| == |values| + 1
  {
    if values != [] && x > values[0] {
      InsertLength(x, values[1..]);
    }
  }

  function Ceiling(x: real): int {
    -((-x).Floor)
  }

  /** `percentile`, for a fraction `p`. */
  function Percentile(values: seq<real>, p: real): real {
    if values == [] then 0.0
    else
      var ordered := Sorted(values);
      var rank := Ceiling(|values| as real * p) - 1;
      var least := if rank < 0 then 0 else rank;
      ordered[if least > |ordered| - 1 then |ordered| - 1 else least]
  }

  ghost predicate Ascending(values: seq<real>) {
    forall i, j | 0 <= i <= j < |values| :: values[i] <= values[j]
  }

  lemma {:induction false} InsertMembers(x: real, values: seq<real>)
    ensures multiset(Insert(x, values)) == multiset(values) + multiset{x}
  {
    if values != [] && x > values[0] {
      InsertMembers(x, values[1..]);
      assert values == [values[0]] + values[1..];
    }
  }

  lemma {:induction false} InsertAscends(x: real, values: seq<real>)
    requires Ascending(values)
    ensures Ascending(Insert(x, values))
  {
    if values != [] && x > values[0] {
      var rest := Insert(x, values[1..]);
      InsertAscends(x, values[1..]);
      InsertMembers(x, values[1..]);
      forall j | 0 <= j < |rest| ensures values[0] <= rest[j] {
        assert rest[j] in multiset(values[1..]) + multiset{x};
      }
    }
  }

  lemma {:induction false} InsertCounts(x: real, values: seq<real>, y: real)
    ensures CountUpTo(Insert(x, values), y) == CountUpTo(values, y) + if x <= y then 1 else 0
  {
    if values == [] || x <= values[0] {
      assert ([x] + values)[1..] == values;
    } else {
      InsertCounts(x, values[1..], y);
      assert ([values[0]] + Insert(x, values[1..]))[1..] == Insert(x, values[1..]);
    }
  }

  lemma {:induction false} SortedMeans(values: seq<real>, y: real)
    ensures Ascending(Sorted(values)) && CountUpTo(Sorted(values), y) == CountUpTo(values, y)
    ensures multiset(Sorted(values)) == multiset(values)
  {
    if values != [] {
      SortedMeans(values[1..], y);
      InsertAscends(values[0], Sorted(values[1..]));
      InsertCounts(values[0], Sorted(values[1..]), y);
      InsertMembers(values[0], Sorted(values[1..]));
      assert values == [values[0]] + values[1..];
    }
  }

  /** In an ascending list the entries up to `x` are a prefix. */
  lemma {:induction false} CountPrefix(values: seq<real>, x: real, k: nat)
    requires Ascending(values) && k <= |values|
    ensures (k > 0 ==> values[k - 1] <= x) ==> CountUpTo(values, x) >= k
    ensures (k < |values| ==> x < values[k]) ==> CountUpTo(values, x) <= k
  {
    if values != [] {
      var rest := values[1..];
      if k > 0 {
        CountPrefix(rest, x, k - 1);
      } else {
        CountPrefix(rest, x, 0);
      }
    }
  }

  lemma RankInRange(n: nat, p: real) returns (rank: nat)
    requires n > 0 && 0.0 < p <= 1.0
    ensures rank == Ceiling(n as real * p) && 1 <= rank <= n
    ensures n as real * p <= rank as real < n as real * p + 1.0
  {
    var share := n as real * p;
    assert share > 0.0;
    assert share <= n as real * 1.0;
    rank := Ceiling(share);
  }

  lemma PercentileRank(values: seq<real>, p: real) returns (rank: nat, share: real)
    requires values != [] && 0.0 < p <= 1.0
    ensures share == |values| as real * p && share <= rank as real < share + 1.0
    ensures 1 <= rank <= |values| && Percentile(values, p) == Sorted(values)[rank - 1]
  {
    rank := RankInRange(|values|, p);
    share := |values| as real * p;
  }

  /** The value of a given rank: that many entries do not exceed it, and fewer do not exceed any lesser value. */
  lemma ValueOfRank(values: seq<real>, rank: nat)
    requires 1 <= rank <= |values|
    ensures var v := Sorted(values)[rank - 1];
            && v in values && CountUpTo(values, v) >= rank
            && forall x | x in values && x < v :: CountUpTo(values, x) <= rank - 1
  {
    var ordered := Sorted(values);
    var v := ordered[rank - 1];
    SortedMeans(values, v);
    CountPrefix(ordered, v, rank);
    assert v in multiset(ordered);
    forall x | x in values && x < v ensures CountUpTo(values, x) <= rank - 1 {
      SortedMeans(values, x);
      CountPrefix(ordered, x, rank - 1);
    }
  }

  /** The published percentile is the nearest-rank one: a value of the list that at least the fraction `p` of
      the list does not exceed, and the least such value. */
  lemma NearestRank(values: seq<real>, p: real)
    requires values != [] && 0.0 < p <= 1.0
    ensures var v := Percentile(values, p);
            && v in values
            && CountUpTo(values, v) as real >= |values| as real * p
            && forall x | x in values && x < v :: (CountUpTo(values, x) as real) < |values| as real * p
  {
    var rank, share := PercentileRank(values, p);
    ValueOfRank(values, rank);
    forall x | x in values && x < Percentile(values, p) ensures (CountUpTo(values, x) as real) < share {
      assert CountUpTo(values, x) <= rank - 1;
    }
  }

  // ----- The list that Orders keeps -----

  function Seconds(samples: seq<Sample>): (r: seq<real>)
    ensures |r| == |samples| && forall i | 0 <= i < |samples| :: r[i] == samples[i].seconds
  {
    if samples == [] then [] else [samples[0].seconds] + Seconds(samples[1..])
  }

  /** `history` is every sample ever recorded and `clock` the time of the latest call. */
  class LatencyLog {
    var latencies: seq<Sample>
    ghost var history: seq<Sample>
    ghost var clock: real

    ghost predicate Valid()
      reads this
    {
      Ordered(history, clock) && latencies == Window(history, clock)
    }

    constructor (start: real)
      ensures Valid() && history == [] && clock == start
    {
      latencies, history, clock := [], [], start;
    }

    /** The list comprehension and its slice. */
    method Prune(now: real)
      modifies this`latencies
      ensures latencies == Window(old(latencies), now)
    {
      var kept: seq<Sample> := [];
      var samples := latencies;
      var i := 0;
      while i < |samples|
        invariant 0 <= i <= |samples| && kept == Fresh(samples[..i], now)
      {
        if now - samples[i].at <= WINDOW_SECONDS {
          kept := kept + [samples[i]];
        }
        assert samples[..i + 1][..i] == samples[..i];
        i := i + 1;
      }
      assert samples[..|samples|] == samples;
      latencies := if |kept| <= MAX_SAMPLES then kept else kept[|kept| - MAX_SAMPLES..];
    }

    /** The end of a checkout. */
    method Record(finished: real, wall: real, started: real)
      requires Valid() && clock <= finished
      modifies this
      ensures Valid() && clock == finished
      ensures history == old(history) + [Sample(finished, wall, finished - started)]
      ensures IsWindow(history, finished, latencies)
    {
      var sample := Sample(finished, wall, finished - started);
      AddThenPrune(history, clock, sample);
      WindowMeans(history + [sample], finished);
      latencies := latencies + [sample];
      Prune(finished);
      history, clock := history + [sample], finished;
    }

    /** What `metrics` publishes: the percentile and the size of the window of everything recorded. */
    method Publish(now: real) returns (p95: real, count: nat)
      requires Valid() && clock <= now
      modifies this
      ensures Valid() && clock == now && history == old(history)
      ensures IsWindow(history, now, latencies)
      ensures count == |latencies| && p95 == Percentile(Seconds(latencies), 0.95)
    {
      PruneTwice(history, clock, now);
      WindowMeans(history, now);
      Prune(now);
      clock := now;
      p95 := Percentile(Seconds(latencies), 0.95);
      count := |latencies|;
    }
  }

  // ----- Every run -----

  datatype Event = Finished(sample: Sample) | Scraped(now: real)

  function When(event: Event): real {
    match event
    case Finished(sample) => sample.at
    case Scraped(now) => now
  }

  /** `history` is every sample ever recorded. */
  datatype State = State(latencies: seq<Sample>, history: seq<Sample>, clock: real)

  function Next(s: State, event: Event): State {
    match event
    case Finished(sample) => State(Window(s.latencies + [sample], sample.at), s.history + [sample], sample.at)
    case Scraped(now) => State(Window(s.latencies, now), s.history, now)
  }

  function Exec(s: State, events: seq<Event>): State
    decreases |events|
  {
    if events == [] then s else Exec(Next(s, events[0]), events[1..])
  }

  /** The clock never runs backwards. */
  ghost predicate Monotone(events: seq<Event>, clock: real) {
    && (forall i | 0 <= i < |events| :: clock <= When(events[i]))
    && (forall i, j | 0 <= i <= j < |events| :: When(events[i]) <= When(events[j]))
  }

  /** What was finished in the run, in order. */
  function Recorded(events: seq<Event>): seq<Sample> {
    if events == [] then []
    else (if events[0].Finished? then [events[0].sample] else []) + Recorded(events[1..])
  }

  /** When the run ends. */
  function Until(events: seq<Event>, start: real): real {
    if events == [] then start else When(events[|events| - 1])
  }

  lemma {:induction false} ExecHistory(s: State, events: seq<Event>)
    ensures Exec(s, events).history == s.history + Recorded(events) && Exec(s, events).clock == Until(events, s.clock)
    decreases |events|
  {
    if events != [] {
      ExecHistory(Next(s, events[0]), events[1..]);
    }
  }

  lemma {:induction false} ExecWindow(s: State, events: seq<Event>)
    requires Ordered(s.history, s.clock) && s.latencies == Window(s.history, s.clock) && Monotone(events, s.clock)
    ensures var t := Exec(s, events); Ordered(t.history, t.clock) && t.latencies == Window(t.history, t.clock)
    decreases |events|
  {
    if events != [] {
      match events[0] {
        case Finished(sample) => AddThenPrune(s.history, s.clock, sample);
        case Scraped(now) => PruneTwice(s.history, s.clock, now);
      }
      forall i | 0 <= i < |events[1..]| ensures events[1..][i] == events[i + 1] {}
      ExecWindow(Next(s, events[0]), events[1..]);
    }
  }

  lemma KeptIsWindow(events: seq<Event>, start: real)
    requires Monotone(events, start)
    ensures Ordered(Recorded(events), Until(events, start))
    ensures Exec(State([], [], start), events).latencies == Window(Recorded(events), Until(events, start))
  {
    ExecWindow(State([], [], start), events);
    ExecHistory(State([], [], start), events);
    assert [] + Recorded(events) == Recorded(events);
  }

  /** For every run under a monotone clock the list that is pruned again and again is the window, at the end of the
      run, of everything that was recorded: the newest 5000 samples of the last 300 seconds. */
  lemma RollingWindow(events: seq<Event>, start: real)
    requires Monotone(events, start)
    ensures IsWindow(Recorded(events), Until(events, start), Exec(State([], [], start), events).latencies)
  {
    KeptIsWindow(events, start);
    WindowMeans(Recorded(events), Until(events, start));
  }
}
