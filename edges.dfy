/**
 * Specifications of the previous-value edge detectors over a whole run of
 * observations. A detector keeps one cell holding the last committed value,
 * seeded with the value seen at mount; each render compares the cell with the
 * current value, fires or not, and then overwrites the cell.
 *
 * The step-wise definitions (ChangeCalls, RisingCalls) follow the detector one
 * observation at a time; the counts (Changes, RisingEdges) are independent
 * definitions over adjacent pairs of the sequence; the lemmas connect the two.
 */
module Edges {

  /** A value change between two consecutive observations. */
  predicate Changed(prev: bool, cur: bool) {
    prev != cur
  }

  /** A false-to-true transition (a focus gain). */
  predicate Rising(prev: bool, cur: bool) {
    !prev && cur
  }

  /** What the previous-value cell holds after seeing `s`, when seeded with `seed`. */
  function LastOr(seed: bool, s: seq<bool>): bool {
    if s == [] then seed else s[|s| - 1]
  }

  /** The values a change handler receives, in order, from a cell seeded with `seed` that sees `s`. */
  function ChangeCalls(seed: bool, s: seq<bool>): seq<bool>
    decreases |s|
  {
    if s == [] then []
    else
      var p := s[..|s| - 1];
      ChangeCalls(seed, p) + (if Changed(LastOr(seed, p), s[|s| - 1]) then [s[|s| - 1]] else [])
  }

  /** The number of firings of a rising-edge detector seeded with `seed` that sees `s`. */
  function RisingCalls(seed: bool, s: seq<bool>): nat
    decreases |s|
  {
    if s == [] then 0
    else
      var p := s[..|s| - 1];
      RisingCalls(seed, p) + (if Rising(LastOr(seed, p), s[|s| - 1]) then 1 else 0)
  }

  /** The number of adjacent positions of `s` whose values differ. */
  function Changes(s: seq<bool>): nat {
    if |s| < 2 then 0 else (if Changed(s[0], s[1]) then 1 else 0) + Changes(s[1..])
  }

  /** The number of adjacent positions of `s` that go from false to true. */
  function RisingEdges(s: seq<bool>): nat {
    if |s| < 2 then 0 else (if Rising(s[0], s[1]) then 1 else 0) + RisingEdges(s[1..])
  }

  /** Observing one more value first: the step-wise definition seen from the front. */
  lemma {:induction false} ChangeCallsCons(seed: bool, a: bool, rest: seq<bool>)
    ensures ChangeCalls(seed, [a] + rest) == (if Changed(seed, a) then [a] else []) + ChangeCalls(a, rest)
    decreases |rest|
  {
    if rest == [] {
      assert ([a] + rest)[..0] == [];
    } else {
      var s := [a] + rest;
      var p := rest[..|rest| - 1];
      assert s[..|s| - 1] == [a] + p;
      ChangeCallsCons(seed, a, p);
      assert LastOr(seed, [a] + p) == LastOr(a, p);
    }
  }

  lemma {:induction false} RisingCallsCons(seed: bool, a: bool, rest: seq<bool>)
    ensures RisingCalls(seed, [a] + rest) == (if Rising(seed, a) then 1 else 0) + RisingCalls(a, rest)
    decreases |rest|
  {
    if rest == [] {
      assert ([a] + rest)[..0] == [];
    } else {
      var s := [a] + rest;
      var p := rest[..|rest| - 1];
      assert s[..|s| - 1] == [a] + p;
      RisingCallsCons(seed, a, p);
      assert LastOr(seed, [a] + p) == LastOr(a, p);
    }
  }

  /** A detector seeded with `seed` fires as often as `[seed] + s` has adjacent changes. */
  lemma {:induction false} ChangeCallsCountFrom(seed: bool, s: seq<bool>)
    ensures |ChangeCalls(seed, s)| == Changes([seed] + s)
    decreases |s|
  {
    if s != [] {
      ChangeCallsCons(seed, s[0], s[1..]);
      assert [s[0]] + s[1..] == s;
      ChangeCallsCountFrom(s[0], s[1..]);
      assert ([seed] + s)[1..] == [s[0]] + s[1..];
    }
  }

  lemma {:induction false} RisingCallsCountFrom(seed: bool, s: seq<bool>)
    ensures RisingCalls(seed, s) == RisingEdges([seed] + s)
    decreases |s|
  {
    if s != [] {
      RisingCallsCons(seed, s[0], s[1..]);
      assert [s[0]] + s[1..] == s;
      RisingCallsCountFrom(s[0], s[1..]);
      assert ([seed] + s)[1..] == [s[0]] + s[1..];
    }
  }

  /**
   * Seeded with its first element (so nothing fires at mount), a change
   * detector fires exactly once per adjacent change of the run.
   */
  lemma ChangeCallsCount(s: seq<bool>)
    requires s != []
    ensures |ChangeCalls(s[0], s)| == Changes(s)
  {
    ChangeCallsCons(s[0], s[0], s[1..]);
    assert [s[0]] + s[1..] == s;
    ChangeCallsCountFrom(s[0], s[1..]);
  }

  /** Seeded with its first element, a rising-edge detector fires once per false-to-true edge. */
  lemma RisingCallsCount(s: seq<bool>)
    requires s != []
    ensures RisingCalls(s[0], s) == RisingEdges(s)
  {
    RisingCallsCons(s[0], s[0], s[1..]);
    assert [s[0]] + s[1..] == s;
    RisingCallsCountFrom(s[0], s[1..]);
  }

  /**
   * The values a change handler receives strictly alternate, starting with the
   * negation of the seed; after an even number of calls the cell is back at the seed.
   */
  lemma {:induction false} ChangeCallsAlternate(seed: bool, s: seq<bool>)
    ensures forall j :: 0 <= j < |ChangeCalls(seed, s)| ==>
      ChangeCalls(seed, s)[j] == (if j % 2 == 0 then !seed else seed)
    ensures LastOr(seed, s) == (if |ChangeCalls(seed, s)| % 2 == 0 then seed else !seed)
    decreases |s|
  {
    if s != [] {
      ChangeCallsAlternate(seed, s[..|s| - 1]);
    }
  }

  /**
   * A run starting blurred has one more focus gain than focus losses, or as
   * many; a run starting focused has at most as many gains as losses.
   */
  lemma {:induction false} RisingEdgesHalfOfChanges(s: seq<bool>)
    requires s != []
    ensures RisingEdges(s) == (Changes(s) + (if s[0] then 0 else 1)) / 2
    decreases |s|
  {
    if |s| >= 2 {
      RisingEdgesHalfOfChanges(s[1..]);
    }
  }

  /** The run `[false, false, true, true, false]` delivers exactly `true`, then `false`, and one focus gain. */
  lemma FalseFalseTrueTrueFalse()
    ensures ChangeCalls(false, [false, false, true, true, false]) == [true, false]
    ensures RisingCalls(false, [false, false, true, true, false]) == 1
  {
    var s1, s2, s3, s4, s5 := [false], [false, false], [false, false, true], [false, false, true, true], [false, false, true, true, false];
    assert s1[..0] == [] && s2[..1] == s1 && s3[..2] == s2 && s4[..3] == s3 && s5[..4] == s4;
    assert ChangeCalls(false, s1) == [] && RisingCalls(false, s1) == 0;
    assert ChangeCalls(false, s2) == [] && RisingCalls(false, s2) == 0;
    assert ChangeCalls(false, s3) == [true] && RisingCalls(false, s3) == 1;
    assert ChangeCalls(false, s4) == [true] && RisingCalls(false, s4) == 1;
  }
}
