/**
 * Region detection on an amino-acid string. The source composes the literal pattern
 * `.*(f1).*(f2)...*` and runs one `re.search`; the regex engine is not modelled.
 * Instead the match it produces is specified: the fragments occur literally, in the
 * caller's order, without overlapping, and backtracking over the greedy `.*` picks
 * the lexicographically largest tuple of start positions.
 */
module AaRegions {
  import opened Wrappers
  import opened Values
  import opened Dicts

  /** A half-open interval [start, end); an end equal to the sequence length is stored as 0. */
  datatype AaRegion = AaRegion(start: int, end: int)

  /** `AaRegion.create`. */
  function Create(start: int, end: int, sequence: string): (r: AaRegion)
    ensures r.start == start
    ensures end == |sequence| ==> r.end == 0
    ensures end != |sequence| ==> r.end == end
  {
    if |sequence| == end then AaRegion(start, 0) else AaRegion(start, end)
  }

  const ParseError: string := "Unable to parse amino_acids using RegExp"

  /** The keyword arguments whose value is a str, in the caller's order. */
  function StringFragments(kwargs: seq<(string, Value)>): (r: seq<(string, string)>)
    ensures |r| <= |kwargs|
  {
    if kwargs == [] then []
    else
      var last := kwargs[|kwargs| - 1];
      StringFragments(kwargs[..|kwargs| - 1]) + (if last.1.Str? then [(last.0, last.1.text)] else [])
  }

  /** Filtering distributes over concatenation of the keyword arguments. */
  lemma {:induction false} StringFragmentsAppend(a: seq<(string, Value)>, b: seq<(string, Value)>)
    ensures StringFragments(a + b) == StringFragments(a) + StringFragments(b)
    decreases |b|
  {
    if b == [] {
      assert a + b == a;
    } else {
      assert (a + b)[..|a + b| - 1] == a + b[..|b| - 1];
      StringFragmentsAppend(a, b[..|b| - 1]);
    }
  }

  /** Exactly the str-valued entries are kept, each unchanged. */
  lemma StringFragmentsSingle(name: string, v: Value)
    ensures v.Str? ==> StringFragments([(name, v)]) == [(name, v.text)]
    ensures !v.Str? ==> StringFragments([(name, v)]) == []
  {
    assert [(name, v)][..0] == [];
  }

  /** `f` occurs literally at position `p` of `aa`. */
  predicate OccursAt(aa: string, f: string, p: nat) {
    p + |f| <= |aa| && aa[p..p + |f|] == f
  }

  /**
   * Start positions `ps` place every fragment literally, in order, each ending
   * no later than the next one starts, and the last one ending by `limit`.
   */
  ghost predicate PlacedBefore(aa: string, frags: seq<string>, ps: seq<nat>, limit: nat) {
    && |ps| == |frags|
    && (forall i :: 0 <= i < |ps| ==> OccursAt(aa, frags[i], ps[i]))
    && (forall i :: 0 <= i < |ps| - 1 ==> ps[i] + |frags[i]| <= ps[i + 1])
    && (|ps| > 0 ==> ps[|ps| - 1] + |frags[|ps| - 1]| <= limit)
  }

  /** A match of `.*(f1).*(f2)...*`: an in-order, non-overlapping placement of all fragments. */
  ghost predicate IsPlacement(aa: string, frags: seq<string>, ps: seq<nat>) {
    PlacedBefore(aa, frags, ps, |aa|)
  }

  /** `qs` is lexicographically at most `ps`. */
  ghost predicate LexLeq(qs: seq<nat>, ps: seq<nat>)
    requires |qs| == |ps|
  {
    qs == [] || qs[0] < ps[0] || (qs[0] == ps[0] && LexLeq(qs[1..], ps[1..]))
  }

  /** The match backtracking returns: the lexicographically largest placement. */
  ghost predicate IsRegexMatch(aa: string, frags: seq<string>, ps: seq<nat>) {
    IsPlacement(aa, frags, ps) && forall qs :: IsPlacement(aa, frags, qs) ==> LexLeq(qs, ps)
  }

  /** The rightmost occurrence of `f` ending by `limit`. */
  function RightmostOccurrence(aa: string, f: string, limit: nat): (r: Option<nat>)
    requires limit <= |aa|
    ensures r.Some? ==> OccursAt(aa, f, r.value) && r.value + |f| <= limit
    ensures forall p: nat :: OccursAt(aa, f, p) && p + |f| <= limit ==> r.Some? && p <= r.value
    decreases limit
  {
    if |f| > limit then None
    else if aa[limit - |f|..limit] == f then Some(limit - |f|)
    else RightmostOccurrence(aa, f, limit - 1)
  }

  /**
   * Places the fragments from the last one backwards, each at its rightmost
   * occurrence ending before the next one starts.
   */
  function LatestPlacement(aa: string, frags: seq<string>, limit: nat): (r: Option<seq<nat>>)
    requires limit <= |aa|
    ensures r.Some? ==> PlacedBefore(aa, frags, r.value, limit)
    decreases |frags|
  {
    if frags == [] then Some([])
    else
      var init := frags[..|frags| - 1];
      match RightmostOccurrence(aa, frags[|frags| - 1], limit)
      case None => None
      case Some(p) =>
        match LatestPlacement(aa, init, p)
        case None => None
        case Some(ps) => Some(ps + [p])
  }

  /** Every placement is componentwise below the latest one, which therefore exists. */
  lemma {:induction false} LatestPlacementIsMaximal(aa: string, frags: seq<string>, limit: nat, qs: seq<nat>)
    requires limit <= |aa|
    requires PlacedBefore(aa, frags, qs, limit)
    ensures LatestPlacement(aa, frags, limit).Some?
    ensures forall i :: 0 <= i < |qs| ==> qs[i] <= LatestPlacement(aa, frags, limit).value[i]
    decreases |frags|
  {
    if frags != [] {
      var n := |frags|;
      var init := frags[..n - 1];
      var q := qs[n - 1];
      assert OccursAt(aa, frags[n - 1], q);
      var p := RightmostOccurrence(aa, frags[n - 1], limit).value;
      var qs' := qs[..n - 1];
      assert PlacedBefore(aa, init, qs', p) by {
        forall i | 0 <= i < |qs'| ensures OccursAt(aa, init[i], qs'[i]) {
          assert OccursAt(aa, frags[i], qs[i]);
        }
        forall i | 0 <= i < |qs'| - 1 ensures qs'[i] + |init[i]| <= qs'[i + 1] {
          assert qs[i] + |frags[i]| <= qs[i + 1];
        }
        if |qs'| > 0 {
          assert qs[n - 2] + |frags[n - 2]| <= qs[n - 1];
        }
      }
      LatestPlacementIsMaximal(aa, init, p, qs');
    }
  }

  /** A componentwise upper bound of the same length is lexicographically an upper bound. */
  lemma {:induction false} ComponentwiseIsLex(qs: seq<nat>, ps: seq<nat>)
    requires |qs| == |ps|
    requires forall i :: 0 <= i < |qs| ==> qs[i] <= ps[i]
    ensures LexLeq(qs, ps)
    decreases |qs|
  {
    if qs != [] && qs[0] == ps[0] {
      ComponentwiseIsLex(qs[1..], ps[1..]);
    }
  }

  /** The latest placement of all fragments is exactly what the regex search matches. */
  lemma LatestPlacementIsRegexMatch(aa: string, frags: seq<string>)
    requires LatestPlacement(aa, frags, |aa|).Some?
    ensures IsRegexMatch(aa, frags, LatestPlacement(aa, frags, |aa|).value)
  {
    var ps := LatestPlacement(aa, frags, |aa|).value;
    forall qs | IsPlacement(aa, frags, qs) ensures LexLeq(qs, ps) {
      LatestPlacementIsMaximal(aa, frags, |aa|, qs);
      ComponentwiseIsLex(qs, ps);
    }
  }

  /** The second components of an association list. */
  function Texts(d: seq<(string, string)>): (r: seq<string>)
    ensures |r| == |d|
    ensures forall i :: 0 <= i < |d| ==> r[i] == d[i].1
  {
    seq(|d|, i requires 0 <= i < |d| => d[i].1)
  }

  /** The start positions of detected regions. */
  function Starts(regions: Dict<string, AaRegion>): (r: seq<nat>)
    requires forall i :: 0 <= i < |regions| ==> regions[i].1.start >= 0
    ensures |r| == |regions|
  {
    seq(|regions|, i requires 0 <= i < |regions| => regions[i].1.start as nat)
  }

  /** Pairs each fragment name with the region its placement gives. */
  function Regions(named: seq<(string, string)>, ps: seq<nat>, aminoAcids: string): (r: Dict<string, AaRegion>)
    requires |ps| == |named|
    ensures Keys(r) == Keys(named)
    ensures forall i :: 0 <= i < |r| ==> r[i].1 == Create(ps[i], ps[i] + |named[i].1|, aminoAcids)
    ensures forall i :: 0 <= i < |r| ==> r[i].1.start >= 0
    ensures Starts(r) == ps
  {
    var r := seq(|named|, i requires 0 <= i < |named| => (named[i].0, Create(ps[i], ps[i] + |named[i].1|, aminoAcids)));
    assert Starts(r) == ps by {
      assert forall i :: 0 <= i < |r| ==> Starts(r)[i] == ps[i];
    }
    r
  }

  /** No placement of `frags` exists when the latest one does not. */
  lemma NoPlacement(aa: string, frags: seq<string>)
    requires LatestPlacement(aa, frags, |aa|).None?
    ensures forall qs: seq<nat> :: !IsPlacement(aa, frags, qs)
  {
    forall qs | IsPlacement(aa, frags, qs) ensures false {
      LatestPlacementIsMaximal(aa, frags, |aa|, qs);
    }
  }

  /**
   * `regions` is what a successful search yields for the named fragments: one
   * region per fragment, under the fragment's name and in the same order, starting
   * where the regex match places the fragment and spanning its length.
   */
  ghost predicate DescribesMatch(aa: string, named: seq<(string, string)>, regions: Dict<string, AaRegion>) {
    && Keys(regions) == Keys(named)
    && (forall i :: 0 <= i < |regions| ==> regions[i].1.start >= 0)
    && IsRegexMatch(aa, Texts(named), Starts(regions))
    && (forall i :: 0 <= i < |regions| ==>
          regions[i].1 == Create(regions[i].1.start, regions[i].1.start + |named[i].1|, aa))
  }

  /** The regions built from the regex match's placement describe that match. */
  lemma RegionsDescribeMatch(aa: string, named: seq<(string, string)>, ps: seq<nat>)
    requires |ps| == |named|
    requires IsRegexMatch(aa, Texts(named), ps)
    ensures DescribesMatch(aa, named, Regions(named, ps, aa))
  {
    var regions := Regions(named, ps, aa);
    assert Starts(regions) == ps;
  }

  /** A placement witnesses that one exists. */
  lemma PlacementExists(aa: string, frags: seq<string>, ps: seq<nat>)
    requires IsPlacement(aa, frags, ps)
    ensures exists qs: seq<nat> :: IsPlacement(aa, frags, qs)
  {
  }

  /**
   * `AaRegions.detect`. With no line break in `aminoAcids`, `.` matches every
   * character, so the search matches at position 0 whenever any placement exists.
   */
  function Detect(aminoAcids: string, kwargs: seq<(string, Value)>): (r: Result<Dict<string, AaRegion>>)
    requires '\n' !in aminoAcids
    ensures r.Ok? ==> exists qs: seq<nat> :: IsPlacement(aminoAcids, Texts(StringFragments(kwargs)), qs)
    ensures (exists qs: seq<nat> :: IsPlacement(aminoAcids, Texts(StringFragments(kwargs)), qs)) ==> r.Ok?
    ensures r.Err? ==> r.message == ParseError
    ensures r.Ok? ==> DescribesMatch(aminoAcids, StringFragments(kwargs), r.value)
  {
    match LatestPlacement(aminoAcids, Texts(StringFragments(kwargs)), |aminoAcids|)
    case None =>
      NoPlacement(aminoAcids, Texts(StringFragments(kwargs)));
      Err(ParseError)
    case Some(ps) =>
      LatestPlacementIsRegexMatch(aminoAcids, Texts(StringFragments(kwargs)));
      RegionsDescribeMatch(aminoAcids, StringFragments(kwargs), ps);
      PlacementExists(aminoAcids, Texts(StringFragments(kwargs)), ps);
      Ok(Regions(StringFragments(kwargs), ps, aminoAcids))
  }

  /** `regions.get(name)`. */
  function Region(regions: Dict<string, AaRegion>, name: string): Option<AaRegion> {
    Get(regions, name)
  }

  /** With no str fragment the pattern is `.*.*`: the result is empty and nothing is raised. */
  lemma {:induction false} DetectWithoutFragments(aminoAcids: string, kwargs: seq<(string, Value)>)
    requires '\n' !in aminoAcids
    requires forall i :: 0 <= i < |kwargs| ==> !kwargs[i].1.Str?
    ensures Detect(aminoAcids, kwargs) == Ok([])
  {
    NoStringFragments(kwargs);
  }

  lemma {:induction false} NoStringFragments(kwargs: seq<(string, Value)>)
    requires forall i :: 0 <= i < |kwargs| ==> !kwargs[i].1.Str?
    ensures StringFragments(kwargs) == []
  {
    if kwargs != [] {
      NoStringFragments(kwargs[..|kwargs| - 1]);
    }
  }

  /** A single fragment that occurs somewhere is placed at its rightmost occurrence. */
  lemma DetectSingle(aminoAcids: string, name: string, f: string, p: nat)
    requires '\n' !in aminoAcids
    requires OccursAt(aminoAcids, f, p)
    requires forall p': nat :: OccursAt(aminoAcids, f, p') ==> p' <= p
    ensures Detect(aminoAcids, [(name, Str(f))]) == Ok([(name, Create(p, p + |f|, aminoAcids))])
  {
    StringFragmentsSingle(name, Str(f));
    var named := StringFragments([(name, Str(f))]);
    assert named == [(name, f)];
    assert Texts(named) == [f];
    var q := RightmostOccurrence(aminoAcids, f, |aminoAcids|);
    assert q == Some(p);
    assert [f][..0] == [];
    assert LatestPlacement(aminoAcids, [], p) == Some([]);
    assert [] + [p] == [p];
    assert LatestPlacement(aminoAcids, [f], |aminoAcids|) == Some([p]);
    var regions := Regions(named, [p], aminoAcids);
    assert regions == [(name, Create(p, p + |f|, aminoAcids))];
  }

  /** The worked example: "CDE" in "ABCDEFGHIJ" is the region [2, 5). */
  lemma DetectExampleInside()
    ensures Detect("ABCDEFGHIJ", [("frag", Str("CDE"))]) == Ok([("frag", AaRegion(2, 5))])
  {
    var aa := "ABCDEFGHIJ";
    assert OccursAt(aa, "CDE", 2);
    forall p': nat | 2 < p' <= 7 ensures !OccursAt(aa, "CDE", p') {
      assert aa[p'..p' + 3][0] == aa[p'];
      assert p' == 3 || p' == 4 || p' == 5 || p' == 6 || p' == 7;
    }
    DetectSingle(aa, "frag", "CDE", 2);
  }

  /** The worked example: "HIJ" ends the sequence, so its end is stored as 0. */
  lemma DetectExampleAtEnd()
    ensures Detect("ABCDEFGHIJ", [("frag", Str("HIJ"))]) == Ok([("frag", AaRegion(7, 0))])
  {
    var aa := "ABCDEFGHIJ";
    assert OccursAt(aa, "HIJ", 7);
    forall p': nat | OccursAt(aa, "HIJ", p') ensures p' <= 7 {
    }
    DetectSingle(aa, "frag", "HIJ", 7);
  }

  /** The worked example: fragments found in the reverse order raise instead of being reordered. */
  lemma DetectExampleOutOfOrder()
    ensures Detect("ABCXYZ", [("a", Str("XYZ")), ("b", Str("ABC"))]).Err?
  {
    var aa := "ABCXYZ";
    var kwargs := [("a", Str("XYZ")), ("b", Str("ABC"))];
    StringFragmentsAppend([kwargs[0]], [kwargs[1]]);
    assert kwargs == [kwargs[0]] + [kwargs[1]];
    StringFragmentsSingle("a", Str("XYZ"));
    StringFragmentsSingle("b", Str("ABC"));
    var frags := Texts(StringFragments(kwargs));
    assert frags == ["XYZ", "ABC"];
    assert aa[..3] == "ABC";
    assert RightmostOccurrence(aa, "ABC", 3) == Some(0);
    assert aa[1..4] != "ABC" by { assert aa[1] == 'B'; }
    assert aa[2..5] != "ABC" by { assert aa[2] == 'C'; }
    assert aa[3..6] != "ABC" by { assert aa[3] == 'X'; }
    assert RightmostOccurrence(aa, "ABC", 6) == Some(0);
    assert RightmostOccurrence(aa, "XYZ", 0) == None;
    assert LatestPlacement(aa, frags, |aa|) == None;
  }

  /** Every kept fragment is a str-valued keyword argument, and every str-valued argument is kept. */
  lemma {:induction false} StringFragmentsMembers(kwargs: seq<(string, Value)>)
    ensures forall p :: p in StringFragments(kwargs) ==> (p.0, Str(p.1)) in kwargs
    ensures forall i :: 0 <= i < |kwargs| && kwargs[i].1.Str? ==> (kwargs[i].0, kwargs[i].1.text) in StringFragments(kwargs)
    decreases |kwargs|
  {
    if kwargs != [] {
      var init := kwargs[..|kwargs| - 1];
      var last := kwargs[|kwargs| - 1];
      var tail := if last.1.Str? then [(last.0, last.1.text)] else [];
      assert StringFragments(kwargs) == StringFragments(init) + tail;
      StringFragmentsMembers(init);
      forall p | p in StringFragments(kwargs)
        ensures (p.0, Str(p.1)) in kwargs
      {
        if p in StringFragments(init) {
          assert (p.0, Str(p.1)) in init;
        } else {
          assert p in tail;
        }
      }
      forall i | 0 <= i < |kwargs| && kwargs[i].1.Str?
        ensures (kwargs[i].0, kwargs[i].1.text) in StringFragments(kwargs)
      {
        if i < |kwargs| - 1 {
          assert kwargs[i] == init[i];
        } else {
          assert (kwargs[i].0, kwargs[i].1.text) in tail;
        }
      }
    }
  }

  /** Where a str-valued argument lands among the kept fragments. */
  lemma {:induction false} StringFragmentIndex(kwargs: seq<(string, Value)>, i: nat) returns (j: nat)
    requires i < |kwargs| && kwargs[i].1.Str?
    ensures j < |StringFragments(kwargs)|
    ensures StringFragments(kwargs)[j] == (kwargs[i].0, kwargs[i].1.text)
    decreases |kwargs|
  {
    var init := kwargs[..|kwargs| - 1];
    if i == |kwargs| - 1 {
      j := |StringFragments(init)|;
    } else {
      j := StringFragmentIndex(init, i);
    }
  }

  /** Keyword arguments have distinct names, so the kept fragments do too. */
  lemma {:induction false} StringFragmentsDistinct(kwargs: seq<(string, Value)>)
    requires DistinctKeys(kwargs)
    ensures DistinctKeys(StringFragments(kwargs))
    decreases |kwargs|
  {
    if kwargs != [] {
      var init := kwargs[..|kwargs| - 1];
      var last := kwargs[|kwargs| - 1];
      StringFragmentsDistinct(init);
      StringFragmentsMembers(init);
      var sf := StringFragments(init);
      forall i | 0 <= i < |sf| ensures sf[i].0 != last.0 {
        assert (sf[i].0, Str(sf[i].1)) in init;
      }
    }
  }

  /** In regions describing a match, each fragment's name leads to its own region. */
  lemma DescribedRegion(aa: string, named: seq<(string, string)>, regions: Dict<string, AaRegion>, j: nat)
    requires DescribesMatch(aa, named, regions)
    requires DistinctKeys(named)
    requires j < |named|
    ensures j < |regions| && regions[j].1.start >= 0
    ensures Region(regions, named[j].0) == Some(regions[j].1)
    ensures OccursAt(aa, named[j].1, regions[j].1.start as nat)
    ensures regions[j].1 == Create(regions[j].1.start, regions[j].1.start + |named[j].1|, aa)
  {
    assert |Keys(regions)| == |Keys(named)|;
    assert regions[j].0 == named[j].0 by {
      assert Keys(regions)[j] == Keys(named)[j];
    }
    assert DistinctKeys(regions) by {
      forall a, b | 0 <= a < b < |regions| ensures regions[a].0 != regions[b].0 {
        assert Keys(regions)[a] == Keys(named)[a];
        assert Keys(regions)[b] == Keys(named)[b];
      }
    }
    GetUnique(regions, j);
    assert IsPlacement(aa, Texts(named), Starts(regions));
    assert OccursAt(aa, Texts(named)[j], Starts(regions)[j]);
  }

  /**
   * Once the search succeeds, every str-valued argument has its region, and the
   * region starts at an occurrence of the argument's text and spans its length.
   */
  lemma DetectFindsEachFragment(aminoAcids: string, kwargs: seq<(string, Value)>, regions: Dict<string, AaRegion>, i: nat)
    requires '\n' !in aminoAcids
    requires DistinctKeys(kwargs)
    requires i < |kwargs| && kwargs[i].1.Str?
    requires Detect(aminoAcids, kwargs) == Ok(regions)
    ensures Region(regions, kwargs[i].0).Some?
    ensures Region(regions, kwargs[i].0).value.start >= 0
    ensures OccursAt(aminoAcids, kwargs[i].1.text, Region(regions, kwargs[i].0).value.start as nat)
    ensures Region(regions, kwargs[i].0).value ==
      Create(Region(regions, kwargs[i].0).value.start, Region(regions, kwargs[i].0).value.start + |kwargs[i].1.text|, aminoAcids)
  {
    var named := StringFragments(kwargs);
    assert DescribesMatch(aminoAcids, named, regions);
    StringFragmentsDistinct(kwargs);
    var j := StringFragmentIndex(kwargs, i);
    DescribedRegion(aminoAcids, named, regions, j);
  }

  /** A keyword argument that is not a str has no region. */
  lemma DetectSkipsOthers(aminoAcids: string, kwargs: seq<(string, Value)>, regions: Dict<string, AaRegion>, i: nat)
    requires '\n' !in aminoAcids
    requires DistinctKeys(kwargs)
    requires i < |kwargs| && !kwargs[i].1.Str?
    requires Detect(aminoAcids, kwargs) == Ok(regions)
    ensures Region(regions, kwargs[i].0).None?
  {
    var named := StringFragments(kwargs);
    assert Keys(regions) == Keys(named);
    StringFragmentsMembers(kwargs);
    forall j | 0 <= j < |named| ensures named[j].0 != kwargs[i].0 {
      assert (named[j].0, Str(named[j].1)) in kwargs;
      var m :| 0 <= m < |kwargs| && kwargs[m] == (named[j].0, Str(named[j].1));
      assert m != i;
    }
    assert kwargs[i].0 !in Keys(regions);
  }
}
