/** Walk-forward splitting with an embargo, interval purging and a final holdout. */
module WalkForward {
  import opened Sorting
  import opened Wrappers

  datatype Sample = Sample(date: int, time: int, instrument: int, start: int, end: int, valid: bool)

  datatype Config = Config(expanding: bool, train: nat, validation: nat, test: nat, step: nat, embargo: nat,
                           holdout: nat) {
    /** `WalkForwardConfig.__post_init__`. */
    predicate Valid() {
      train > 0 && validation > 0 && test > 0 && step >= validation + test
    }
  }

  /** Positions of a fold's windows among the development sessions, each from its start up to the next. */
  datatype Window = Window(trainStart: nat, trainEnd: nat, validationStart: nat, testStart: nat, testEnd: nat)

  datatype Fold = Fold(number: nat, train: seq<Sample>, validation: seq<Sample>, test: seq<Sample>,
                       trainStart: int, trainEnd: int, validationStart: int, validationEnd: int, testStart: int,
                           testEnd: int,
                       cutoff: int, purged: nat, embargoed: nat)

  datatype SplitResult = SplitResult(folds: seq<Fold>, finalHoldout: seq<Sample>, holdoutDates: seq<int>)

  datatype SplitError = DateOutsideCalendar | ChronologyFailed | NoFitCutoff

  predicate StrictlyAscending(s: seq<int>) {
    forall i, j :: 0 <= i < j < |s| ==> s[i] < s[j]
  }

  function Filter<T(!new)>(s: seq<T>, keep: T -> bool): (r: seq<T>)
    ensures forall x :: x in r <==> x in s && keep(x)
  {
    if s == [] then []
    else
      assert s == [s[0]] + s[1..];
      (if keep(s[0]) then [s[0]] else []) + Filter(s[1..], keep)
  }

  function On(rows: seq<Sample>, dates: seq<int>): seq<Sample> {
    Filter(rows, (r: Sample) => r.date in dates)
  }

  predicate Overlaps(a: Sample, b: Sample) {
    a.start <= b.end && a.end >= b.start
  }

  /** The row's label interval meets the interval of an evaluation row. */
  predicate Leaks(row: Sample, evaluation: seq<Sample>) {
    exists e <- evaluation :: Overlaps(row, e)
  }

  function Kept(train: seq<Sample>, evaluation: seq<Sample>): seq<Sample> {
    Filter(train, (r: Sample) => !Leaks(r, evaluation))
  }

  // ---- Windows ----

  /** The development sessions are those before the final holdout. */
  function Development(config: Config, n: nat): nat {
    n - if config.holdout < n then config.holdout else n
  }

  /** How far `k` steps have moved the windows. */
  function Offset(config: Config, k: nat): nat {
    if k == 0 then 0 else Offset(config, k - 1) + config.step
  }

  lemma {:induction false} OffsetsGrow(config: Config, k: nat, l: nat)
    requires k < l
    ensures Offset(config, k) + config.step <= Offset(config, l)
  {
    if k < l - 1 {
      OffsetsGrow(config, k, l - 1);
    }
  }

  lemma {:induction false} OffsetIsProduct(config: Config, k: nat)
    ensures Offset(config, k) == k * config.step
  {
    if k > 0 {
      OffsetIsProduct(config, k - 1);
    }
  }

  function WindowOf(config: Config, k: nat): (w: Window)
    ensures w.trainStart <= w.trainEnd <= w.validationStart <= w.testStart <= w.testEnd
    ensures config.Valid() ==> w.trainStart < w.trainEnd && w.validationStart < w.testStart < w.testEnd
  {
    var trainEnd := config.train + Offset(config, k);
    var validationStart := trainEnd + config.embargo;
    var testStart := validationStart + config.validation;
    Window(if config.expanding then 0 else Offset(config, k), trainEnd, validationStart, testStart,
           testStart + config.test)
  }

  /** As many steps as fit after the first full window. */
  function FoldCount(config: Config, n: nat): nat
    requires config.step > 0
  {
    var window := config.train + config.embargo + config.validation + config.test;
    if window > n then 0 else (n - window) / config.step + 1
  }

  lemma FoldsFit(config: Config, n: nat, k: nat)
    requires config.Valid()
    ensures k < FoldCount(config, n) <==> WindowOf(config, k).testEnd <= n
  {
    var window := config.train + config.embargo + config.validation + config.test;
    OffsetIsProduct(config, k);
    if window <= n {
      StepsFit(n - window, config.step, k, k * config.step);
    }
  }

  lemma StepsFit(room: nat, step: nat, k: nat, moved: nat)
    requires step > 0 && moved == k * step
    ensures k <= room / step <==> moved <= room
  {
    var q := room / step;
    assert room == step * q + room % step;
    if k <= q {
      assert (q - k) * step >= 0;
    } else {
      assert (k - q - 1) * step >= 0;
    }
  }

  /** What the `k`-th fold is, from the sessions and the valid rows. */
  ghost predicate IsFold(config: Config, sessions: seq<int>, rows: seq<Sample>, k: nat, fold: Fold)
    requires config.Valid()
  {
    var w := WindowOf(config, k);
    && w.testEnd <= Development(config, |sessions|)
    && var trainDates := sessions[w.trainStart..w.trainEnd];
    var validationDates := sessions[w.validationStart..w.testStart];
    var testDates := sessions[w.testStart..w.testEnd];
    && fold.number == k + 1
    && fold.validation == On(rows, validationDates) && fold.test == On(rows, testDates)
    && fold.train == Kept(On(rows, trainDates), fold.validation + fold.test)
    && fold.trainStart == sessions[w.trainStart] && fold.trainEnd == sessions[w.trainEnd - 1]
    && fold.validationStart == sessions[w.validationStart] && fold.validationEnd == sessions[w.testStart - 1]
    && fold.testStart == sessions[w.testStart] && fold.testEnd == sessions[w.testEnd - 1]
    && fold.purged == |On(rows, trainDates)| - |fold.train|
    && fold.embargoed == |On(rows, sessions[w.trainEnd..w.validationStart])|
    && (exists r <- fold.train :: r.time == fold.cutoff) && (forall r <- fold.train :: r.time <= fold.cutoff)
  }

  ghost predicate AreFolds(config: Config, sessions: seq<int>, rows: seq<Sample>, folds: seq<Fold>)
    requires config.Valid()
  {
    forall k :: 0 <= k < |folds| ==> IsFold(config, sessions, rows, k, folds[k])
  }

  /** The purge leaves the `k`-th fold no training row. */
  predicate Starves(config: Config, sessions: seq<int>, rows: seq<Sample>, k: nat)
    requires WindowOf(config, k).testEnd <= |sessions|
  {
    var w := WindowOf(config, k);
    Kept(On(rows, sessions[w.trainStart..w.trainEnd]),
         On(rows, sessions[w.validationStart..w.testStart]) + On(rows, sessions[w.testStart..w.testEnd])) == []
  }

  // ---- Separation ----

  /** Evaluation windows of different folds share no session, and validation none with its own test. */
  lemma EvaluationsAreDisjoint(config: Config, sessions: seq<int>, k: nat, l: nat, d: int)
    requires config.Valid() && StrictlyAscending(sessions) && k < l && WindowOf(config, l).testEnd <= |sessions|
    ensures WindowOf(config, k).testEnd <= WindowOf(config, l).validationStart
    ensures d in sessions[WindowOf(config, k).validationStart..WindowOf(config, k).testEnd] ==>
              d !in sessions[WindowOf(config, l).validationStart..WindowOf(config, l).testEnd]
  {
    OffsetsGrow(config, k, l);
    SlicesAreDisjoint(sessions, WindowOf(config, k).validationStart, WindowOf(config, k).testEnd,
                      WindowOf(config, l).validationStart, WindowOf(config, l).testEnd, d);
  }

  lemma SlicesAreDisjoint(s: seq<int>, a: nat, b: nat, c: nat, d: nat, x: int)
    requires StrictlyAscending(s) && a <= b <= c <= d <= |s|
    ensures x in s[a..b] ==> x !in s[c..d]
  {
    if x in s[a..b] {
      var i :| a <= i < b && s[i] == x;
      assert forall j :: c <= j < d ==> s[i] < s[j];
    }
  }

  /** Between the last training session and the first validation session lie exactly the embargoed ones. */
  lemma EmbargoIsExact(config: Config, sessions: seq<int>, k: nat, i: nat)
    requires config.Valid() && StrictlyAscending(sessions) && WindowOf(config, k).testEnd <= |sessions|
             && i < |sessions|
    ensures var w := WindowOf(config, k);
      sessions[w.trainEnd - 1] < sessions[i] < sessions[w.validationStart] <==>
        w.trainEnd <= i < w.trainEnd + config.embargo
  {
    var w := WindowOf(config, k);
    if i < w.trainEnd - 1 { assert sessions[i] < sessions[w.trainEnd - 1]; }
    if w.validationStart < i { assert sessions[w.validationStart] < sessions[i]; }
  }

  /** No fold looks at the final holdout. */
  lemma HoldoutIsUntouched(config: Config, sessions: seq<int>, k: nat, d: int)
    requires config.Valid() && StrictlyAscending(sessions)
    requires WindowOf(config, k).testEnd <= Development(config, |sessions|)
    ensures d in sessions[WindowOf(config, k).trainStart..WindowOf(config, k).testEnd] ==>
              d !in sessions[Development(config, |sessions|)..]
  {
    var n := Development(config, |sessions|);
    assert sessions[n..] == sessions[n..|sessions|];
    SlicesAreDisjoint(sessions, WindowOf(config, k).trainStart, WindowOf(config, k).testEnd, n, |sessions|, d);
  }

  /** A fold trains on a row exactly when it is a valid row of its training window that meets no evaluation interval. */
  lemma PurgeIsExact(config: Config, sessions: seq<int>, rows: seq<Sample>, k: nat, fold: Fold, row: Sample)
    requires config.Valid() && IsFold(config, sessions, rows, k, fold)
    ensures row in fold.train <==>
              && row in rows && row.date in sessions[WindowOf(config, k).trainStart..WindowOf(config, k).trainEnd]
              && forall e :: e in fold.validation || e in fold.test ==> row.end < e.start || e.end < row.start
  {
    var evaluation := fold.validation + fold.test;
    if row in fold.train {
      forall e | e in fold.validation || e in fold.test
        ensures row.end < e.start || e.end < row.start
      {
        assert e in evaluation;
      }
    }
  }

  // ---- The out-of-sample rows ----

  /** `PredictionLedger` refuses two rows of one instrument at one decision time. */
  function LedgerKey(r: Sample): (int, int) {
    (r.instrument, r.time)
  }

  function OutOfSample(folds: seq<Fold>): seq<Sample> {
    if folds == [] then []
    else
      var last := folds[|folds| - 1];
      OutOfSample(folds[..|folds| - 1]) + (last.validation + last.test)
  }

  lemma DistinctConcat(a: seq<Sample>, b: seq<Sample>)
    requires Distinct(a, LedgerKey) && Distinct(b, LedgerKey)
    requires forall x, y :: x in a && y in b ==> LedgerKey(x) != LedgerKey(y)
    ensures Distinct(a + b, LedgerKey)
  {
    var all := a + b;
    forall i, j | 0 <= i < j < |all|
      ensures LedgerKey(all[i]) != LedgerKey(all[j])
    {
      if i < |a| { assert all[i] in a; }
      if |a| <= j { assert all[j] in b; }
    }
  }

  lemma {:induction false} FilterStaysDistinct(s: seq<Sample>, keep: Sample -> bool)
    requires Distinct(s, LedgerKey)
    ensures Distinct(Filter(s, keep), LedgerKey)
  {
    if s != [] {
      assert s == [s[0]] + s[1..];
      DistinctCons(s[0], s[1..], LedgerKey);
      FilterStaysDistinct(s[1..], keep);
      DistinctCons(s[0], Filter(s[1..], keep), LedgerKey);
    }
  }

  lemma DifferentRows(rows: seq<Sample>, x: Sample, y: Sample)
    requires Distinct(rows, LedgerKey) && x in rows && y in rows && x != y
    ensures LedgerKey(x) != LedgerKey(y)
  {
    var i :| 0 <= i < |rows| && rows[i] == x;
    var j :| 0 <= j < |rows| && rows[j] == y;
    assert i < j || j < i;
  }

  /** The evaluation rows of one fold are rows of its evaluation window, each once. */
  lemma EvaluationIsDistinct(config: Config, sessions: seq<int>, rows: seq<Sample>, k: nat, fold: Fold)
    requires config.Valid() && StrictlyAscending(sessions) && Distinct(rows, LedgerKey)
    requires IsFold(config, sessions, rows, k, fold)
    ensures Distinct(fold.validation + fold.test, LedgerKey)
    ensures forall r <- fold.validation + fold.test ::
              r in rows && r.date in sessions[WindowOf(config, k).validationStart..WindowOf(config, k).testEnd]
  {
    hide Kept;
    var w := WindowOf(config, k);
    var validationDates, testDates := sessions[w.validationStart..w.testStart], sessions[w.testStart..w.testEnd];
    FilterStaysDistinct(rows, (r: Sample) => r.date in validationDates);
    FilterStaysDistinct(rows, (r: Sample) => r.date in testDates);
    assert sessions[w.validationStart..w.testEnd] == validationDates + testDates;
    forall x, y | x in fold.validation && y in fold.test
      ensures LedgerKey(x) != LedgerKey(y)
    {
      SlicesAreDisjoint(sessions, w.validationStart, w.testStart, w.testStart, w.testEnd, x.date);
      DifferentRows(rows, x, y);
    }
    DistinctConcat(fold.validation, fold.test);
  }

  /** Over unique samples, the evaluation rows of all folds together never repeat an instrument and time. */
  lemma {:induction false} LedgerHasNoDuplicates(config: Config, sessions: seq<int>, rows: seq<Sample>,
                                                 folds: seq<Fold>)
    requires config.Valid() && StrictlyAscending(sessions) && Distinct(rows, LedgerKey)
    requires AreFolds(config, sessions, rows, folds)
    ensures Distinct(OutOfSample(folds), LedgerKey)
    ensures forall r <- OutOfSample(folds) ::
              r in rows && exists k :: 0 <= k < |folds| && InEvaluation(config, sessions, k, r.date)
  {
    hide IsFold;
    if folds != [] {
      var n := |folds| - 1;
      var before, last := folds[..n], folds[n];
      LedgerHasNoDuplicates(config, sessions, rows, before);
      EvaluationIsDistinct(config, sessions, rows, n, last);
      FoldFitsSessions(config, sessions, rows, n, last);
      var earlier, later := OutOfSample(before), last.validation + last.test;
      forall x, y | x in earlier && y in later
        ensures LedgerKey(x) != LedgerKey(y)
      {
        var k :| 0 <= k < n && InEvaluation(config, sessions, k, x.date);
        EvaluationsAreDisjoint(config, sessions, k, n, x.date);
        DifferentRows(rows, x, y);
      }
      DistinctConcat(earlier, later);
      forall r | r in earlier + later
        ensures r in rows && exists k :: 0 <= k < |folds| && InEvaluation(config, sessions, k, r.date)
      {
        if r in earlier {
          var k :| 0 <= k < n && InEvaluation(config, sessions, k, r.date);
        } else {
          assert InEvaluation(config, sessions, n, r.date);
        }
      }
    }
  }

  predicate InEvaluation(config: Config, sessions: seq<int>, k: nat, d: int) {
    var w := WindowOf(config, k);
    w.testEnd <= |sessions| && d in sessions[w.validationStart..w.testEnd]
  }

  lemma FoldFitsSessions(config: Config, sessions: seq<int>, rows: seq<Sample>, k: nat, fold: Fold)
    requires config.Valid() && IsFold(config, sessions, rows, k, fold)
    ensures WindowOf(config, k).testEnd <= |sessions|
  {
  }

  // ---- The splitter ----

  function WithDate(d: int, s: seq<int>): seq<int> {
    if s == [] || d < s[0] then [d] + s
    else if d == s[0] then s
    else [s[0]] + WithDate(d, s[1..])
  }

  /** `sorted(set(...))`. */
  function SortedSet(dates: seq<int>): seq<int> {
    if dates == [] then [] else WithDate(dates[0], SortedSet(dates[1..]))
  }

  lemma {:induction false} WithDateKeeps(d: int, s: seq<int>)
    requires StrictlyAscending(s)
    ensures StrictlyAscending(WithDate(d, s))
    ensures forall x :: x in WithDate(d, s) <==> x == d || x in s
    ensures s != [] && d > s[0] ==> WithDate(d, s)[0] == s[0]
  {
    if s != [] && d > s[0] {
      WithDateKeeps(d, s[1..]);
      assert s == [s[0]] + s[1..];
      var rest := WithDate(d, s[1..]);
      forall x | x in rest
        ensures s[0] < x
      {
        if x in s[1..] {
          var i :| 0 <= i < |s| - 1 && s[1..][i] == x;
          assert s[0] < s[i + 1];
        }
      }
    }
  }

  lemma {:induction false} SortedSetKeeps(dates: seq<int>)
    ensures StrictlyAscending(SortedSet(dates))
    ensures forall x :: x in SortedSet(dates) <==> x in dates
  {
    if dates != [] {
      assert dates == [dates[0]] + dates[1..];
      SortedSetKeeps(dates[1..]);
      WithDateKeeps(dates[0], SortedSet(dates[1..]));
    }
  }

  /** By decision time, then instrument. */
  predicate RowBefore(a: Sample, b: Sample) {
    a.time < b.time || (a.time == b.time && a.instrument < b.instrument)
  }

  /** The rows the splitter works on. */
  function ValidRows(samples: seq<Sample>): seq<Sample> {
    Sorted(Filter(samples, (s: Sample) => s.valid), RowBefore)
  }

  // ---- What a fold is, from the samples alone ----

  /** By decision time, then instrument. */
  predicate Chronological(rows: seq<Sample>) {
    forall i, j :: 0 <= i < j < |rows| ==>
      rows[i].time < rows[j].time || (rows[i].time == rows[j].time && rows[i].instrument <= rows[j].instrument)
  }

  /** The rows are the valid samples of these dates, each as often as given. */
  ghost predicate Selects(samples: seq<Sample>, dates: seq<int>, rows: seq<Sample>) {
    && Chronological(rows)
    && forall s: Sample :: multiset(rows)[s] == if s.valid && s.date in dates then multiset(samples)[s] else 0
  }

  ghost predicate SelectsCount(samples: seq<Sample>, dates: seq<int>, n: int) {
    exists rows :: Selects(samples, dates, rows) && |rows| == n
  }

  /** A label interval that ends before the other begins. */
  predicate Apart(a: Sample, b: Sample) {
    a.end < b.start || b.end < a.start
  }

  /** The training rows are those selected samples whose label intervals meet none of the evaluation rows. */
  ghost predicate SelectsApart(samples: seq<Sample>, dates: seq<int>, evaluation: seq<Sample>, rows: seq<Sample>) {
    && Chronological(rows)
    && forall s: Sample :: multiset(rows)[s] ==
                           if s.valid && s.date in dates && (forall e <- evaluation :: Apart(s, e))
                           then multiset(samples)[s] else 0
  }

  /**
    * The fold whose first window starts at session `start`: training, embargo, validation and test sessions follow
    * one another in the configured lengths.
    */
  ghost predicate Shows(config: Config, sessions: seq<int>, samples: seq<Sample>, start: nat, fold: Fold) {
    var from := if config.expanding then 0 else start;
    var gap := start + config.train;
    var first := gap + config.embargo;
    var second := first + config.validation;
    var last := second + config.test;
    && from < gap && first < second < last <= |sessions|
    && Selects(samples, sessions[first..second], fold.validation)
    && Selects(samples, sessions[second..last], fold.test)
    && SelectsApart(samples, sessions[from..gap], fold.validation + fold.test, fold.train)
    && SelectsCount(samples, sessions[from..gap], |fold.train| + fold.purged)
    && SelectsCount(samples, sessions[gap..first], fold.embargoed)
    && fold.trainStart == sessions[from] && fold.trainEnd == sessions[gap - 1]
    && fold.validationStart == sessions[first] && fold.validationEnd == sessions[second - 1]
    && fold.testStart == sessions[second] && fold.testEnd == sessions[last - 1]
    && (exists r <- fold.train :: r.time == fold.cutoff) && (forall r <- fold.train :: r.time <= fold.cutoff)
  }

  lemma {:induction false} FilterMultiplicity(s: seq<Sample>, keep: Sample -> bool, x: Sample)
    ensures multiset(Filter(s, keep))[x] == if keep(x) then multiset(s)[x] else 0
  {
    if s != [] {
      FilterMultiplicity(s[1..], keep, x);
      assert s == [s[0]] + s[1..];
    }
  }

  lemma {:induction false} FilterIsChronological(s: seq<Sample>, keep: Sample -> bool)
    requires Chronological(s)
    ensures Chronological(Filter(s, keep))
  {
    if s != [] {
      FilterIsChronological(s[1..], keep);
      var rest := Filter(s[1..], keep);
      forall j | 0 <= j < |rest|
        ensures s[0].time < rest[j].time || (s[0].time == rest[j].time && s[0].instrument <= rest[j].instrument)
      {
        assert rest[j] in s[1..];
      }
    }
  }

  lemma ValidRowsAre(samples: seq<Sample>)
    ensures Chronological(ValidRows(samples))
    ensures forall s: Sample :: multiset(ValidRows(samples))[s] == if s.valid then multiset(samples)[s] else 0
  {
    var valid := Filter(samples, (s: Sample) => s.valid);
    SortedIsOrdered(valid, RowBefore);
    SortedIsPermutation(valid, RowBefore);
    forall s: Sample
      ensures multiset(valid)[s] == if s.valid then multiset(samples)[s] else 0
    {
      FilterMultiplicity(samples, (s: Sample) => s.valid, s);
    }
  }

  lemma ValidRowsAreMembers(samples: seq<Sample>)
    ensures forall s :: s in ValidRows(samples) <==> s in samples && s.valid
  {
    SortedMembers(Filter(samples, (s: Sample) => s.valid), RowBefore);
  }

  lemma OnSelects(samples: seq<Sample>, dates: seq<int>)
    ensures Selects(samples, dates, On(ValidRows(samples), dates))
  {
    hide ValidRows;
    ValidRowsAre(samples);
    var keep := (r: Sample) => r.date in dates;
    FilterIsChronological(ValidRows(samples), keep);
    forall s: Sample
      ensures multiset(On(ValidRows(samples), dates))[s] ==
              if s.valid && s.date in dates then multiset(samples)[s] else 0
    {
      FilterMultiplicity(ValidRows(samples), keep, s);
    }
  }

  lemma KeptSelects(samples: seq<Sample>, dates: seq<int>, evaluation: seq<Sample>)
    ensures SelectsApart(samples, dates, evaluation, Kept(On(ValidRows(samples), dates), evaluation))
  {
    hide ValidRows, On;
    OnSelects(samples, dates);
    var rows, keep := On(ValidRows(samples), dates), (r: Sample) => !Leaks(r, evaluation);
    FilterIsChronological(rows, keep);
    forall s: Sample
      ensures multiset(Kept(rows, evaluation))[s] ==
              if s.valid && s.date in dates && (forall e <- evaluation :: Apart(s, e)) then multiset(samples)[s] else 0
    {
      FilterMultiplicity(rows, keep, s);
      assert Leaks(s, evaluation) <==> exists e <- evaluation :: !Apart(s, e);
    }
  }

  lemma FoldShows(config: Config, sessions: seq<int>, samples: seq<Sample>, k: nat, start: nat, fold: Fold)
    requires config.Valid() && IsFold(config, sessions, ValidRows(samples), k, fold) && start == k * config.step
    ensures Shows(config, sessions, samples, start, fold)
  {
    hide Selects, SelectsApart, On, Kept, ValidRows;
    OffsetIsProduct(config, k);
    var w := WindowOf(config, k);
    var trainDates, embargoDates := sessions[w.trainStart..w.trainEnd], sessions[w.trainEnd..w.validationStart];
    OnSelects(samples, trainDates);
    OnSelects(samples, embargoDates);
    OnSelects(samples, sessions[w.validationStart..w.testStart]);
    OnSelects(samples, sessions[w.testStart..w.testEnd]);
    KeptSelects(samples, trainDates, fold.validation + fold.test);
    assert SelectsCount(samples, trainDates, |On(ValidRows(samples), trainDates)|);
    assert SelectsCount(samples, embargoDates, |On(ValidRows(samples), embargoDates)|);
  }

  /**
    * The fold whose first window starts at session `start` keeps a training row: some valid training sample is apart
    * from every valid evaluation sample.
    */
  ghost predicate HasTraining(config: Config, sessions: seq<int>, samples: seq<Sample>, start: nat) {
    var from := if config.expanding then 0 else start;
    var gap := start + config.train;
    var first := gap + config.embargo;
    var last := first + config.validation + config.test;
    && from < gap && last <= |sessions|
    && exists s <- samples ::
         && s.valid && s.date in sessions[from..gap]
         && forall e <- samples :: e.valid && e.date in sessions[first..last] ==> Apart(s, e)
  }

  /** The same for the windows moved by `k` steps. */
  ghost predicate TrainsAt(config: Config, sessions: seq<int>, samples: seq<Sample>, k: nat) {
    forall start: nat :: start == k * config.step ==> HasTraining(config, sessions, samples, start)
  }

  lemma FeedsIs(config: Config, sessions: seq<int>, samples: seq<Sample>, k: nat)
    requires config.Valid()
    ensures Feeds(config, sessions, ValidRows(samples), k) <==> TrainsAt(config, sessions, samples, k)
  {
    hide ValidRows, On, Kept, Apart, HasTraining, Feeds;
    var start := k * config.step;
    FeedsFrom(config, sessions, samples, k, start);
    assert TrainsAt(config, sessions, samples, k) ==> HasTraining(config, sessions, samples, start);
  }

  lemma FeedsFrom(config: Config, sessions: seq<int>, samples: seq<Sample>, k: nat, start: nat)
    requires config.Valid() && start == k * config.step
    ensures Feeds(config, sessions, ValidRows(samples), k) <==> HasTraining(config, sessions, samples, start)
  {
    hide ValidRows, On, Kept, Apart;
    OffsetIsProduct(config, k);
    ValidRowsAreMembers(samples);
    var rows, w := ValidRows(samples), WindowOf(config, k);
    if w.testEnd <= |sessions| {
      assert sessions[w.validationStart..w.testStart] + sessions[w.testStart..w.testEnd]
          == sessions[w.validationStart..w.testEnd];
      TrainingIs(rows, sessions[w.trainStart..w.trainEnd], sessions[w.validationStart..w.testStart],
                 sessions[w.testStart..w.testEnd]);
    }
  }

  lemma TrainingIs(rows: seq<Sample>, trainDates: seq<int>, validationDates: seq<int>, testDates: seq<int>)
    ensures Kept(On(rows, trainDates), On(rows, validationDates) + On(rows, testDates)) != [] <==>
            exists s <- rows :: s.date in trainDates
                                && forall e <- rows :: e.date in validationDates + testDates ==> Apart(s, e)
  {
    var evaluation := On(rows, validationDates) + On(rows, testDates);
    var kept := Kept(On(rows, trainDates), evaluation);
    forall s
      ensures Leaks(s, evaluation) <==> exists e <- rows :: e.date in validationDates + testDates && !Apart(s, e)
    {
      assert forall e :: e in evaluation <==> e in rows && e.date in validationDates + testDates;
    }
    if kept != [] {
      assert kept[0] in kept;
    }
  }

  /** `_purge_overlapping`. */
  method PurgeOverlapping(train: seq<Sample>, evaluation: seq<Sample>) returns (kept: seq<Sample>)
    ensures kept == Kept(train, evaluation)
  {
    hide Leaks;
    if train == [] || evaluation == [] {
      KeepsAll(train, evaluation);
      return train;
    }
    var intervals := set e <- evaluation :: (e.start, e.end);
    kept := [];
    for i := 0 to |train|
      invariant kept == Kept(train[..i], evaluation)
    {
      var row := train[i];
      var overlap := exists interval <- intervals :: row.start <= interval.1 && row.end >= interval.0;
      IntervalsDecide(row, evaluation);
      FilterNext(train[..i], row, (r: Sample) => !Leaks(r, evaluation));
      assert train[..i + 1] == train[..i] + [row];
      if !overlap {
        kept := kept + [row];
      }
    }
    assert train[..|train|] == train;
  }

  lemma IntervalsDecide(row: Sample, evaluation: seq<Sample>)
    ensures Leaks(row, evaluation) <==>
            exists interval <- (set e <- evaluation :: (e.start, e.end)) ::
              row.start <= interval.1 && row.end >= interval.0
  {
    var intervals := set e <- evaluation :: (e.start, e.end);
    if Leaks(row, evaluation) {
      var e :| e in evaluation && Overlaps(row, e);
      assert (e.start, e.end) in intervals;
    }
    if interval :| interval in intervals && row.start <= interval.1 && row.end >= interval.0 {
      var e :| e in evaluation && (e.start, e.end) == interval;
      assert Overlaps(row, e);
    }
  }

  lemma {:induction false} FilterNext<T(!new)>(s: seq<T>, x: T, keep: T -> bool)
    ensures Filter(s + [x], keep) == Filter(s, keep) + if keep(x) then [x] else []
  {
    if s != [] {
      FilterNext(s[1..], x, keep);
      assert (s + [x])[1..] == s[1..] + [x];
    }
  }

  lemma {:induction false} KeepsAll(train: seq<Sample>, evaluation: seq<Sample>)
    requires train == [] || evaluation == []
    ensures Kept(train, evaluation) == train
  {
    if train != [] {
      KeepsAll(train[1..], evaluation);
      assert train == [train[0]] + train[1..];
    }
  }

  /** The latest decision time of a non-empty list. */
  method LatestTime(rows: seq<Sample>) returns (latest: Option<int>)
    ensures latest.None? <==> rows == []
    ensures latest.Some? ==> (exists r <- rows :: r.time == latest.value) && forall r <- rows :: r.time <= latest.value
  {
    latest := None;
    for i := 0 to |rows|
      invariant latest.None? <==> i == 0
      invariant latest.Some? ==> (exists k :: 0 <= k < i && rows[k].time == latest.value) && forall k :: 0 <= k < i ==>
                  rows[k].time <= latest.value
    {
      if latest.None? || rows[i].time > latest.value {
        latest := Some(rows[i].time);
      }
    }
  }

  class WalkForwardSplitter {
    const config: Config
    const sessions: seq<int>
    var finalHoldoutAccessCount: nat

    constructor (config: Config, tradingSessions: seq<int>)
      requires config.Valid()
      ensures this.config == config && StrictlyAscending(sessions) && finalHoldoutAccessCount == 0
      ensures forall d :: d in sessions <==> d in tradingSessions
    {
      this.config := config;
      sessions := SortedSet(tradingSessions);
      finalHoldoutAccessCount := 0;
      new;
      SortedSetKeeps(tradingSessions);
    }

    /** One fold at a window that fits. */
    method BuildFold(rows: seq<Sample>, k: nat) returns (r: Result<Fold, SplitError>)
      requires config.Valid() && StrictlyAscending(sessions)
               && WindowOf(config, k).testEnd <= Development(config, |sessions|)
      ensures r.Ok? <==> !Starves(config, sessions, rows, k)
      ensures r.Ok? ==> IsFold(config, sessions, rows, k, r.value)
      ensures r.Err? ==> r.error == NoFitCutoff
    {
      hide On, Kept;
      var w := WindowOf(config, k);
      var trainDates := sessions[w.trainStart..w.trainEnd];
      var embargoDates := sessions[w.trainEnd..w.validationStart];
      var validationDates := sessions[w.validationStart..w.testStart];
      var testDates := sessions[w.testStart..w.testEnd];
      var rawTrain := On(rows, trainDates);
      var validation := On(rows, validationDates);
      var test := On(rows, testDates);
      var purgedTrain := PurgeOverlapping(rawTrain, validation + test);
      KeptIsShorter(rawTrain, validation + test);
      var purged := |rawTrain| - |purgedTrain|;
      var embargoed := |On(rows, embargoDates)|;
      if trainDates[|trainDates| - 1] >= validationDates[0] || validationDates[|validationDates| - 1] >= testDates[0] {
        return Err(ChronologyFailed);
      }
      var cutoff := LatestTime(purgedTrain);
      if cutoff.None? {
        return Err(NoFitCutoff);
      }
      r := Ok(Fold(k + 1, purgedTrain, validation, test, trainDates[0], trainDates[|trainDates| - 1],
                   validationDates[0], validationDates[|validationDates| - 1], testDates[0], testDates[|testDates| - 1],
                   cutoff.value, purged, embargoed));
    }

    /**
      * `split`: all the folds that fit between the first session and the final holdout, as many as their closed
      * formula says, each with the samples of its windows. It fails only when a sample is dated outside the calendar,
      * or when the purge leaves some fold no training row.
      */
    method Split(samples: seq<Sample>) returns (r: Result<SplitResult, SplitError>)
      requires config.Valid() && StrictlyAscending(sessions)
      ensures r.Ok? <==>
                && (forall s <- samples :: s.valid ==> s.date in sessions)
                && forall k :: 0 <= k < FoldCount(config, Development(config, |sessions|)) ==>
                     TrainsAt(config, sessions, samples, k)
      ensures r.Err? ==>
                r.error == if exists s <- samples :: s.valid && s.date !in sessions then DateOutsideCalendar
                           else NoFitCutoff
      ensures r.Ok? ==>
                && |r.value.folds| == FoldCount(config, Development(config, |sessions|))
                && AreFolds(config, sessions, ValidRows(samples), r.value.folds)
                && (forall k, start: nat :: 0 <= k < |r.value.folds| && start == k * config.step ==>
                                              Shows(config, sessions, samples, start, r.value.folds[k]))
      ensures r.Ok? ==>
                && |r.value.holdoutDates| == (if config.holdout < |sessions| then config.holdout else |sessions|)
                && r.value.holdoutDates == sessions[|sessions| - |r.value.holdoutDates|..]
                && Selects(samples, r.value.holdoutDates, r.value.finalHoldout)
    {
      hide IsFold, Starves, On, ValidRows, FoldCount, Feeds, TrainsAt, Shows, Selects;
      var rows := ValidRows(samples);
      ValidRowsAreMembers(samples);
      if exists s <- rows :: s.date !in sessions {
        return Err(DateOutsideCalendar);
      }
      var development := Development(config, |sessions|);
      var holdoutDates := sessions[development..];
      var finalHoldout := On(rows, holdoutDates);
      var folds: seq<Fold> := [];
      var trainEnd := config.train;
      while trainEnd + config.embargo + config.validation + config.test <= development
        invariant AreFolds(config, sessions, rows, folds)
        invariant trainEnd == WindowOf(config, |folds|).trainEnd
        invariant |folds| <= FoldCount(config, development)
        invariant forall k :: 0 <= k < |folds| ==> Feeds(config, sessions, rows, k)
        decreases development - trainEnd
      {
        var k := |folds|;
        FoldsFit(config, development, k);
        var fold := BuildFold(rows, k);
        FeedsIfBuilt(config, sessions, rows, k);
        if fold.Err? {
          FeedsIs(config, sessions, samples, k);
          return Err(fold.error);
        }
        folds := folds + [fold.value];
        trainEnd := trainEnd + config.step;
      }
      FoldsFit(config, development, |folds|);
      OnSelects(samples, holdoutDates);
      forall k | 0 <= k < |folds|
        ensures TrainsAt(config, sessions, samples, k)
      {
        FeedsIs(config, sessions, samples, k);
      }
      forall k, start: nat | 0 <= k < |folds| && start == k * config.step
        ensures Shows(config, sessions, samples, start, folds[k])
      {
        FoldShows(config, sessions, samples, k, start, folds[k]);
      }
      r := Ok(SplitResult(folds, finalHoldout, holdoutDates));
    }

    method AccessFinalHoldout(result: SplitResult) returns (rows: seq<Sample>)
      modifies this
      ensures finalHoldoutAccessCount == old(finalHoldoutAccessCount) + 1 && rows == result.finalHoldout
    {
      finalHoldoutAccessCount := finalHoldoutAccessCount + 1;
      rows := result.finalHoldout;
    }
  }

  /** The fold keeps a training row. */
  predicate Feeds(config: Config, sessions: seq<int>, rows: seq<Sample>, k: nat) {
    WindowOf(config, k).testEnd <= |sessions| && !Starves(config, sessions, rows, k)
  }

  lemma FeedsIfBuilt(config: Config, sessions: seq<int>, rows: seq<Sample>, k: nat)
    requires WindowOf(config, k).testEnd <= |sessions|
    ensures Feeds(config, sessions, rows, k) <==> !Starves(config, sessions, rows, k)
  {
  }

  lemma {:induction false} KeptIsShorter(train: seq<Sample>, evaluation: seq<Sample>)
    ensures |Kept(train, evaluation)| <= |train|
  {
    if train != [] {
      KeptIsShorter(train[1..], evaluation);
    }
  }
}
