/** Average ranks: tied values share the middle of the places they take. */
module Ranks {
  import opened Sorting

  /** A value with its position in the input. */
  datatype Entry = Entry(position: nat, value: real)

  function ValueOf(e: Entry): real {
    e.value
  }

  function Position(e: Entry): nat {
    e.position
  }

  function Enumerated(values: seq<real>): seq<Entry> {
    seq(|values|, i requires 0 <= i < |values| => Entry(i, values[i]))
  }

  function Below(v: real): Entry -> bool {
    (e: Entry) => e.value < v
  }

  function UpTo(v: real): Entry -> bool {
    (e: Entry) => e.value <= v
  }

  /** The rank of a value: the middle of the places after everything below it. */
  function MiddleRank(values: seq<real>, v: real): real {
    (Count(Enumerated(values), Below(v)) + Count(Enumerated(values), UpTo(v)) - 1) as real / 2.0 + 1.0
  }

  lemma {:induction false} CountPrefix(s: seq<Entry>, n: nat, condition: Entry -> bool)
    requires n <= |s|
    requires forall i :: 0 <= i < |s| ==> (condition(s[i]) <==> i < n)
    ensures Count(s, condition) == n
  {
    if s != [] {
      if n > 0 {
        CountPrefix(s[1..], n - 1, condition);
      } else {
        CountPrefix(s[1..], 0, condition);
      }
    }
  }

  /** The group of equal values at `i..j` of a sorted list holds the ranks after everything smaller. */
  lemma GroupRank(values: seq<real>, sorted: seq<Entry>, i: nat, j: nat)
    requires sorted == Sorted(Enumerated(values), ByKey(ValueOf)) && i < j <= |sorted|
    requires forall k :: i <= k < j ==> sorted[k].value == sorted[i].value
    requires i > 0 ==> sorted[i - 1].value < sorted[i].value
    requires j < |sorted| ==> sorted[j].value != sorted[i].value
    ensures MiddleRank(values, sorted[i].value) == (i + j - 1) as real / 2.0 + 1.0
  {
    hide Sorted;
    var v := sorted[i].value;
    SortedAscends(Enumerated(values), ValueOf);
    SortedCounts(Enumerated(values), ByKey(ValueOf), Below(v));
    SortedCounts(Enumerated(values), ByKey(ValueOf), UpTo(v));
    assert forall k :: 0 <= k < |sorted| ==> ValueOf(sorted[k]) == sorted[k].value;
    CountPrefix(sorted, i, Below(v));
    CountPrefix(sorted, j, UpTo(v));
  }

  /** Every entry of the sorted list is a value with its own position. */
  lemma SortedEntries(values: seq<real>)
    ensures var sorted := Sorted(Enumerated(values), ByKey(ValueOf));
      && |sorted| == |values| && Distinct(sorted, Position)
      && (forall e :: e in sorted ==> e.position < |values| && e.value == values[e.position])
      && (forall p :: 0 <= p < |values| ==> Entry(p, values[p]) in sorted)
  {
    var entries := Enumerated(values);
    SortedKeeps(entries, ByKey(ValueOf), Position);
    SortedLength(entries, ByKey(ValueOf));
    forall p | 0 <= p < |values|
      ensures Entry(p, values[p]) in entries
    {
      assert entries[p] == Entry(p, values[p]);
    }
  }

  /** `_ranks`. */
  method AverageRanks(values: seq<real>) returns (result: array<real>)
    ensures fresh(result) && result.Length == |values|
    ensures forall p :: 0 <= p < |values| ==> result[p] == MiddleRank(values, values[p])
  {
    hide Sorted, MiddleRank, Enumerated;
    var indexed := Sorted(Enumerated(values), ByKey(ValueOf));
    SortedEntries(values);
    result := new real[|values|];
    var i := 0;
    while i < |indexed|
      invariant 0 <= i <= |indexed|
      invariant 0 < i < |indexed| ==> indexed[i - 1].value < indexed[i].value
      invariant forall k :: 0 <= k < i ==> result[indexed[k].position] == MiddleRank(values, indexed[k].value)
    {
      var j := i + 1;
      while j < |indexed| && indexed[j].value == indexed[i].value
        invariant i < j <= |indexed|
        invariant forall k :: i <= k < j ==> indexed[k].value == indexed[i].value
      {
        j := j + 1;
      }
      var rank := (i + j - 1) as real / 2.0 + 1.0;
      GroupRank(values, indexed, i, j);
      for position := i to j
        invariant forall k :: 0 <= k < position ==> result[indexed[k].position] == MiddleRank(values, indexed[k].value)
      {
        assert forall k :: 0 <= k < position ==> Position(indexed[k]) != Position(indexed[position]);
        result[indexed[position].position] := rank;
      }
      NextIsGreater(values, indexed, j);
      i := j;
    }
    forall p | 0 <= p < |values|
      ensures result[p] == MiddleRank(values, values[p])
    {
      var k :| 0 <= k < |indexed| && indexed[k] == Entry(p, values[p]);
    }
  }

  lemma NextIsGreater(values: seq<real>, sorted: seq<Entry>, j: nat)
    requires sorted == Sorted(Enumerated(values), ByKey(ValueOf)) && 0 < j <= |sorted|
    requires j < |sorted| ==> sorted[j].value != sorted[j - 1].value
    ensures j < |sorted| ==> sorted[j - 1].value < sorted[j].value
  {
    SortedAscends(Enumerated(values), ValueOf);
    assert j < |sorted| ==> ValueOf(sorted[j - 1]) <= ValueOf(sorted[j]);
  }

  lemma {:induction false} CountIsMonotone(s: seq<Entry>, less: Entry -> bool, more: Entry -> bool)
    requires forall e :: less(e) ==> more(e)
    ensures Count(s, less) <= Count(s, more)
  {
    if s != [] {
      CountIsMonotone(s[1..], less, more);
    }
  }

  lemma {:induction false} CountIncludes(s: seq<Entry>, less: Entry -> bool, more: Entry -> bool, e: Entry)
    requires forall x :: less(x) ==> more(x)
    requires e in s && more(e) && !less(e)
    ensures Count(s, less) < Count(s, more)
  {
    if s[0] == e {
      CountIsMonotone(s[1..], less, more);
    } else {
      assert s == [s[0]] + s[1..];
      CountIncludes(s[1..], less, more, e);
    }
  }

  /** Ranks keep the order of the values, and only equal values share a rank. */
  lemma RanksKeepOrder(values: seq<real>, i: nat, j: nat)
    requires i < |values| && j < |values|
    ensures MiddleRank(values, values[i]) < MiddleRank(values, values[j]) <==> values[i] < values[j]
    ensures MiddleRank(values, values[i]) == MiddleRank(values, values[j]) <==> values[i] == values[j]
  {
    if values[i] < values[j] {
      SmallerRank(values, i, j);
    } else if values[j] < values[i] {
      SmallerRank(values, j, i);
    }
  }

  lemma SmallerRank(values: seq<real>, i: nat, j: nat)
    requires i < |values| && j < |values| && values[i] < values[j]
    ensures MiddleRank(values, values[i]) < MiddleRank(values, values[j])
  {
    var s := Enumerated(values);
    assert s[j] == Entry(j, values[j]);
    CountIsMonotone(s, Below(values[i]), Below(values[j]));
    CountIncludes(s, UpTo(values[i]), UpTo(values[j]), s[j]);
  }
}
