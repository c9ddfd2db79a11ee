/** False-discovery correction and greedy selection over the candidate factors. */
module FalseDiscovery {
  import opened Linear
  import opened Sorting
  import opened Wrappers

  datatype Candidate = Candidate(key: int, pValue: Option<real>, score: real)

  /** A missing significance counts as one. */
  function PValue(c: Candidate): real {
    if c.pValue.Some? then c.pValue.value else 1.0
  }

  function PValues(s: seq<Candidate>): seq<real> {
    seq(|s|, i requires 0 <= i < |s| => PValue(s[i]))
  }

  /** A p-value scaled by the number of candidates over its rank. */
  function Scaled(p: real, n: nat, rank: nat): real
    requires rank > 0
  {
    p * n as real / rank as real
  }

  function Ratio(p: seq<real>, i: nat): real
    requires i < |p|
  {
    Scaled(p[i], |p|, i + 1)
  }

  function Min(a: real, b: real): real {
    if b < a then b else a
  }

  /** The running minimum from the largest p-value down to position `i`. */
  function RunningMinimum(p: seq<real>, i: nat): real
    requires i <= |p|
    decreases |p| - i
  {
    if i == |p| then 1.0 else Min(RunningMinimum(p, i + 1), Ratio(p, i))
  }

  // ---- The step-up procedure ----

  /** The p-value of a rank lies under the line of slope `level` over the number of candidates. */
  predicate UnderLine(p: seq<real>, level: real, rank: nat)
    requires 1 <= rank <= |p|
  {
    p[rank - 1] * |p| as real <= level * rank as real
  }

  /** The largest rank under the line, among the first `n`; zero when there is none. */
  function Cutoff(p: seq<real>, level: real, n: nat): (r: nat)
    requires n <= |p|
    ensures r <= n && (r > 0 ==> UnderLine(p, level, r))
    ensures forall rank :: r < rank <= n ==> !UnderLine(p, level, rank)
  {
    if n == 0 then 0 else if UnderLine(p, level, n) then n else Cutoff(p, level, n - 1)
  }

  /** The Benjamini-Hochberg procedure rejects the ranks up to the largest one under the line. */
  predicate StepUpRejects(p: seq<real>, level: real, i: nat) {
    i < Cutoff(p, level, |p|)
  }

  lemma RatioIsUnderLine(p: seq<real>, level: real, i: nat)
    requires i < |p|
    ensures Ratio(p, i) <= level <==> UnderLine(p, level, i + 1)
  {
    var scaled, rank := p[i] * |p| as real, (i + 1) as real;
    Divide(scaled, rank, level);
  }

  /** Below level one, the candidates whose q-value is within the level are those the step-up procedure rejects. */
  lemma QValuesAreStepUp(p: seq<real>, level: real, i: nat)
    requires i < |p| && level < 1.0
    ensures RunningMinimum(p, i) <= level <==> StepUpRejects(p, level, i)
  {
    MinimumReaches(p, level, i);
  }

  lemma {:induction false} MinimumReaches(p: seq<real>, level: real, i: nat)
    requires i <= |p| && level < 1.0
    ensures RunningMinimum(p, i) <= level <==> exists rank :: i < rank <= |p| && UnderLine(p, level, rank)
    decreases |p| - i
  {
    hide UnderLine, Scaled;
    if i < |p| {
      MinimumReaches(p, level, i + 1);
      RatioIsUnderLine(p, level, i);
      if RunningMinimum(p, i + 1) > level && Ratio(p, i) <= level {
        assert UnderLine(p, level, i + 1);
      }
    }
  }

  /** By value: the procedure rejects every p-value no larger than the one at its cutoff. */
  lemma StepUpIsAThreshold(p: seq<real>, level: real, i: nat)
    requires i < |p| && level >= 0.0 && forall j, k :: 0 <= j <= k < |p| ==> p[j] <= p[k]
    ensures var r := Cutoff(p, level, |p|); StepUpRejects(p, level, i) <==> r > 0 && p[i] <= p[r - 1]
  {
    var r, n := Cutoff(p, level, |p|), |p| as real;
    if r > 0 && r <= i && p[i] <= p[r - 1] {
      assert (p[r - 1] - p[i]) * n >= 0.0;
      assert level * (i + 1 - r) as real >= 0.0;
      assert level * (i + 1) as real == level * r as real + level * (i + 1 - r) as real;
      assert UnderLine(p, level, i + 1);
    }
  }

  // ---- Bounds and order ----

  lemma RatioIsAtLeast(p: seq<real>, i: nat)
    requires i < |p| && p[i] >= 0.0
    ensures Ratio(p, i) >= p[i]
  {
    ScalingIsMonotone(p[i], |p|, i + 1, |p|);
    Divide(p[i] * |p| as real, |p| as real, p[i]);
  }

  /** A better rank scales a p-value up. */
  lemma ScalingIsMonotone(p: real, n: nat, rank: nat, worse: nat)
    requires p >= 0.0 && 0 < rank <= worse
    ensures Scaled(p, n, worse) <= Scaled(p, n, rank)
  {
    var x := p * n as real;
    NonNegativeProduct(p, n as real, x);
    var q := x / rank as real;
    Divide(x, rank as real, 0.0);
    NonNegativeProduct(q, (worse - rank) as real, q * (worse - rank) as real);
    assert q * worse as real == q * rank as real + q * (worse - rank) as real;
    Divide(x, worse as real, q);
  }

  /** A q-value is at most one, and never below the p-values it covers. */
  lemma {:induction false} QValuesAreBounded(p: seq<real>, i: nat, bound: real)
    requires i <= |p| && bound <= 1.0 && (i < |p| ==> 0.0 <= bound)
    requires forall j :: i <= j < |p| ==> bound <= p[j]
    ensures bound <= RunningMinimum(p, i) <= 1.0
    decreases |p| - i
  {
    hide Scaled;
    if i < |p| {
      QValuesAreBounded(p, i + 1, bound);
      RatioIsAtLeast(p, i);
    }
  }

  lemma {:induction false} MinimumDescends(p: seq<real>, i: nat, j: nat)
    requires i <= j <= |p|
    ensures RunningMinimum(p, i) <= RunningMinimum(p, j)
    decreases j - i
  {
    if i < j {
      MinimumDescends(p, i + 1, j);
    }
  }

  /** Tied p-values share one q-value. */
  lemma {:induction false} TiesAgree(p: seq<real>, i: nat, j: nat)
    requires i <= j < |p| && p[j] >= 0.0 && forall k :: i <= k <= j ==> p[k] == p[j]
    ensures RunningMinimum(p, i) == RunningMinimum(p, j)
    decreases j - i
  {
    hide Scaled;
    if i < j {
      TiesAgree(p, i + 1, j);
      ScalingIsMonotone(p[j], |p|, i + 1, j + 1);
    }
  }

  /** A smaller p-value never gets a larger q-value. */
  lemma QValuesAreMonotone(p: seq<real>, i: nat, j: nat)
    requires i < |p| && j < |p| && p[i] <= p[j]
    requires forall k, m :: 0 <= k <= m < |p| ==> 0.0 <= p[k] <= p[m]
    ensures RunningMinimum(p, i) <= RunningMinimum(p, j)
  {
    if i <= j {
      MinimumDescends(p, i, j);
    } else {
      assert forall k :: j <= k <= i ==> p[k] == p[i];
      TiesAgree(p, j, i);
    }
  }

  /** The candidates carry these significances; a missing one is the significance one. */
  predicate Significances(candidates: seq<Candidate>, p: seq<real>) {
    && |p| == |candidates|
    && forall i :: 0 <= i < |p| ==>
         if candidates[i].pValue == None then p[i] == 1.0 else candidates[i].pValue == Some(p[i])
  }

  /** The candidates by rising significance; those that share one keep their order. */
  ghost predicate RanksBySignificance(evaluated: seq<Candidate>, ordered: seq<Candidate>, p: seq<real>) {
    && multiset(ordered) == multiset(evaluated) && Significances(ordered, p)
    && (forall i, j :: 0 <= i <= j < |p| ==> p[i] <= p[j])
    && forall v :: Tied(ordered, PValue, v) == Tied(evaluated, PValue, v)
  }

  lemma OrderedRanks(evaluated: seq<Candidate>)
    ensures RanksBySignificance(evaluated, Sorted(evaluated, ByKey(PValue)), PValues(Sorted(evaluated, ByKey(PValue))))
  {
    hide Sorted;
    SortedAscends(evaluated, PValue);
    SortedIsPermutation(evaluated, ByKey(PValue));
    forall v
      ensures Tied(Sorted(evaluated, ByKey(PValue)), PValue, v) == Tied(evaluated, PValue, v)
    {
      SortedIsStable(evaluated, PValue, v);
    }
  }

  /** The q-value loop of `discover_factors`, backwards over the candidates in p-value order. */
  method QValues(evaluated: seq<Candidate>) returns (ordered: seq<Candidate>, q: array<real>, ghost p: seq<real>)
    ensures |ordered| == |evaluated| == q.Length && fresh(q)
    ensures RanksBySignificance(evaluated, ordered, p)
    ensures forall i :: 0 <= i < q.Length ==> q[i] == RunningMinimum(p, i)
  {
    hide RunningMinimum, Scaled, Sorted, RanksBySignificance;
    ordered := Sorted(evaluated, ByKey(PValue));
    OrderedRanks(evaluated);
    SortedLength(evaluated, ByKey(PValue));
    p := PValues(ordered);
    q := new real[|ordered|];
    var runningQ := 1.0;
    LastMinimum(p);
    for i := |ordered| downto 0
      invariant runningQ == RunningMinimum(p, i)
      invariant forall j :: i <= j < q.Length ==> q[j] == RunningMinimum(p, j)
    {
      var rank := i + 1;
      NextMinimum(p, i);
      runningQ := Min(runningQ, Scaled(PValue(ordered[i]), |ordered|, rank));
      q[i] := Min(1.0, runningQ);
    }
  }

  lemma LastMinimum(p: seq<real>)
    ensures RunningMinimum(p, |p|) == 1.0
  {
  }

  lemma {:induction false} NextMinimum(p: seq<real>, i: nat)
    requires i < |p|
    ensures RunningMinimum(p, i) == Min(RunningMinimum(p, i + 1), Scaled(p[i], |p|, i + 1))
    ensures RunningMinimum(p, i) <= 1.0
  {
    AtMostOne(p, i + 1);
  }

  lemma {:induction false} AtMostOne(p: seq<real>, i: nat)
    requires i <= |p|
    ensures RunningMinimum(p, i) <= 1.0
    decreases |p| - i
  {
    if i < |p| {
      AtMostOne(p, i + 1);
    }
  }

  // ---- Greedy selection ----

  /** A candidate too similar to one selected earlier. */
  predicate Clashes(correlation: (Candidate, Candidate) -> real, threshold: real, c: Candidate,
                    selected: seq<Candidate>) {
    exists s <- selected :: Abs(correlation(c, s)) >= threshold
  }

  /** The selection among the first `next` candidates, at these positions. */
  ghost predicate Greedy(ranked: seq<Candidate>, correlation: (Candidate, Candidate) -> real, threshold: real,
                         selected: seq<Candidate>, at: seq<nat>, next: nat)
  {
    && |at| == |selected| && next <= |ranked|
    && (forall i :: 0 <= i < |at| ==> at[i] < next && selected[i] == ranked[at[i]])
    && (forall i, j :: 0 <= i < j < |at| ==> at[i] < at[j] && Abs(correlation(selected[j], selected[i])) < threshold)
    && (forall k :: 0 <= k < next && k !in at ==>
          exists s <- selected :: Abs(correlation(ranked[k], s)) >= threshold)
  }

  lemma GreedyTakes(ranked: seq<Candidate>, correlation: (Candidate, Candidate) -> real, threshold: real,
                    selected: seq<Candidate>, at: seq<nat>, next: nat)
    requires next < |ranked| && Greedy(ranked, correlation, threshold, selected, at, next)
    requires !Clashes(correlation, threshold, ranked[next], selected)
    ensures Greedy(ranked, correlation, threshold, selected + [ranked[next]], at + [next], next + 1)
  {
    var more, places := selected + [ranked[next]], at + [next];
    forall i, j | 0 <= i < j < |places|
      ensures places[i] < places[j] && Abs(correlation(more[j], more[i])) < threshold
    {
      assert more[i] in selected;
    }
    forall k | 0 <= k < next + 1 && k !in places
      ensures exists s <- more :: Abs(correlation(ranked[k], s)) >= threshold
    {
      assert places[|at|] == next;
      assert k !in at;
      var s :| s in selected && Abs(correlation(ranked[k], s)) >= threshold;
      assert s in more;
    }
  }

  lemma GreedySkips(ranked: seq<Candidate>, correlation: (Candidate, Candidate) -> real, threshold: real,
                    selected: seq<Candidate>, at: seq<nat>, next: nat)
    requires next < |ranked| && Greedy(ranked, correlation, threshold, selected, at, next)
    requires Clashes(correlation, threshold, ranked[next], selected)
    ensures Greedy(ranked, correlation, threshold, selected, at, next + 1)
  {
  }

  method IsTooSimilar(correlation: (Candidate, Candidate) -> real, threshold: real, c: Candidate,
                      selected: seq<Candidate>) returns (clashes: bool)
    ensures clashes == Clashes(correlation, threshold, c, selected)
  {
    clashes := exists s <- selected :: Abs(correlation(c, s)) >= threshold;
  }

  /**
    * The greedy selection: mutually dissimilar candidates, best score first, and every candidate passed over
    * is similar to one already selected.
    */
  method Select(evaluated: seq<Candidate>, correlation: (Candidate, Candidate) -> real, threshold: real, topK: nat)
      returns (selected: seq<Candidate>, ghost at: seq<nat>, ghost seen: nat)
    requires topK >= 1
    ensures |selected| <= topK
    ensures Greedy(Sorted(evaluated, ByKey(Worse)), correlation, threshold, selected, at, seen)
    ensures seen == |evaluated| || |selected| == topK
  {
    hide Greedy, Clashes, Sorted;
    var ranked := Sorted(evaluated, ByKey(Worse));
    SortedLength(evaluated, ByKey(Worse));
    selected, at := [], [];
    var next := 0;
    NothingSelected(ranked, correlation, threshold);
    while next < |ranked|
      invariant next <= |ranked| && |selected| < topK
      invariant Greedy(ranked, correlation, threshold, selected, at, next)
    {
      var clashes := IsTooSimilar(correlation, threshold, ranked[next], selected);
      if !clashes {
        GreedyTakes(ranked, correlation, threshold, selected, at, next);
        selected := selected + [ranked[next]];
        at := at + [next];
      } else {
        GreedySkips(ranked, correlation, threshold, selected, at, next);
      }
      next := next + 1;
      if |selected| >= topK {
        break;
      }
    }
    seen := next;
  }

  /** Candidates are ranked by falling score. */
  function Worse(c: Candidate): real {
    -c.score
  }

  lemma NothingSelected(ranked: seq<Candidate>, correlation: (Candidate, Candidate) -> real, threshold: real)
    ensures Greedy(ranked, correlation, threshold, [], [], 0)
  {
  }

  /** The ranking the selection walks: all the candidates, best score first, equal scores in their order. */
  lemma RankedByScore(evaluated: seq<Candidate>, i: nat, j: nat, v: real)
    requires i <= j < |evaluated|
    ensures var ranked := Sorted(evaluated, ByKey(Worse));
            && |ranked| == |evaluated| && multiset(ranked) == multiset(evaluated)
            && ranked[i].score >= ranked[j].score
            && Tied(ranked, Worse, v) == Tied(evaluated, Worse, v)
  {
    SortedAscends(evaluated, Worse);
    SortedLength(evaluated, ByKey(Worse));
    SortedIsPermutation(evaluated, ByKey(Worse));
    SortedIsStable(evaluated, Worse, v);
    var ranked := Sorted(evaluated, ByKey(Worse));
    assert Worse(ranked[i]) <= Worse(ranked[j]);
  }
}
