/**
 * The card-selection rule of `func` in task.py: the quadrilaterals found on a
 * page are sorted by area, largest first, and kept from the front until one
 * falls below a threshold. The image geometry is abstract: each candidate is
 * its area, the x-coordinate of its first polygon vertex and its bounding box.
 */
module CardSelection {
  import opened Wrappers

  datatype BoundingBox = BoundingBox(x: int, y: int, width: int, height: int)

  /** A four-vertex polygon found on a page, reduced to what the selection rule reads. */
  datatype Candidate = Candidate(area: real, firstVertexX: int, box: BoundingBox)

  /** `rectangles[1]` on a list with fewer than two elements. */
  datatype IndexError = IndexError

  predicate SortedByArea(rs: seq<Candidate>) {
    forall i, j :: 0 <= i < j < |rs| ==> rs[i].area >= rs[j].area
  }

  // ---------------------------------------------------------------------
  // rectangles.sort(key=contourArea, reverse=True)

  /** Places `c` in front of the first candidate it is at least as large as. */
  function Insert(c: Candidate, rs: seq<Candidate>): (r: seq<Candidate>)
    ensures |r| == |rs| + 1
  {
    if |rs| == 0 || c.area >= rs[0].area then [c] + rs
    else [rs[0]] + Insert(c, rs[1..])
  }

  lemma {:induction false} InsertPermutes(c: Candidate, rs: seq<Candidate>)
    ensures multiset(Insert(c, rs)) == multiset(rs) + multiset{c}
  {
    if |rs| > 0 && c.area < rs[0].area {
      InsertPermutes(c, rs[1..]);
      assert rs == [rs[0]] + rs[1..];
    }
  }

  lemma {:induction false} InsertSorted(c: Candidate, rs: seq<Candidate>)
    requires SortedByArea(rs)
    ensures SortedByArea(Insert(c, rs))
  {
    if |rs| == 0 || c.area >= rs[0].area {
    } else {
      var rest := Insert(c, rs[1..]);
      InsertSorted(c, rs[1..]);
      InsertPermutes(c, rs[1..]);
      forall k | 0 <= k < |rest| ensures rs[0].area >= rest[k].area {
        assert rest[k] in multiset(rest);
        assert rest[k] in multiset(rs[1..]) + multiset{c};
        if rest[k] != c {
          assert rest[k] in rs[1..];
        }
      }
    }
  }

  /** The candidates in order of decreasing area. */
  function SortByArea(rs: seq<Candidate>): (r: seq<Candidate>)
    ensures |r| == |rs|
  {
    if |rs| == 0 then [] else Insert(rs[0], SortByArea(rs[1..]))
  }

  /** Sorting gives a permutation of the candidates that is sorted by decreasing area. */
  lemma {:induction false} SortByAreaSorted(rs: seq<Candidate>)
    ensures multiset(SortByArea(rs)) == multiset(rs)
    ensures SortedByArea(SortByArea(rs))
  {
    if |rs| > 0 {
      SortByAreaSorted(rs[1..]);
      InsertPermutes(rs[0], SortByArea(rs[1..]));
      InsertSorted(rs[0], SortByArea(rs[1..]));
      assert rs == [rs[0]] + rs[1..];
    }
  }

  // ---------------------------------------------------------------------
  // The loop: keep candidates until one is smaller than the threshold

  /** How many candidates the loop keeps: the longest prefix whose areas all reach `t`. */
  function KeptCount(rs: seq<Candidate>, t: real): (n: nat)
    ensures n <= |rs|
    ensures forall i :: 0 <= i < n ==> rs[i].area >= t
    ensures n < |rs| ==> rs[n].area < t
  {
    if |rs| == 0 || rs[0].area < t then 0 else 1 + KeptCount(rs[1..], t)
  }

  /** A prefix that reaches `t` and is followed by a smaller candidate (or the end) is the kept one. */
  lemma {:induction false} KeptCountIs(rs: seq<Candidate>, t: real, n: nat)
    requires n <= |rs| && forall i :: 0 <= i < n ==> rs[i].area >= t
    requires n < |rs| ==> rs[n].area < t
    ensures KeptCount(rs, t) == n
  {
    if n > 0 {
      KeptCountIs(rs[1..], t, n - 1);
    }
  }

  /** The bounding boxes of the candidates, in order. */
  function Boxes(rs: seq<Candidate>): (r: seq<BoundingBox>)
    ensures |r| == |rs| && forall i :: 0 <= i < |rs| ==> r[i] == rs[i].box
  {
    if |rs| == 0 then [] else [rs[0].box] + Boxes(rs[1..])
  }

  lemma BoxesExtend(rs: seq<Candidate>, i: nat)
    requires i < |rs|
    ensures Boxes(rs[..i + 1]) == Boxes(rs[..i]) + [rs[i].box]
  {
    assert |Boxes(rs[..i + 1])| == |Boxes(rs[..i]) + [rs[i].box]|;
  }

  /** The candidates whose area reaches `t`, in their order: the reference the loop is checked against. */
  function AtLeast(rs: seq<Candidate>, t: real): seq<Candidate> {
    if |rs| == 0 then []
    else (if rs[0].area >= t then [rs[0]] else []) + AtLeast(rs[1..], t)
  }

  /** `AtLeast` keeps each candidate whose area reaches `t`, as often as it occurs, and drops the rest. */
  lemma {:induction false} AtLeastMembers(rs: seq<Candidate>, t: real)
    ensures forall c :: multiset(AtLeast(rs, t))[c] == if c.area >= t then multiset(rs)[c] else 0
  {
    if |rs| > 0 {
      AtLeastMembers(rs[1..], t);
      assert rs == [rs[0]] + rs[1..];
    }
  }

  /** On an area-sorted list the kept prefix is exactly the candidates whose area reaches `t`. */
  lemma {:induction false} KeptPrefixIsAtLeast(rs: seq<Candidate>, t: real)
    requires SortedByArea(rs)
    ensures rs[..KeptCount(rs, t)] == AtLeast(rs, t)
  {
    if |rs| == 0 {
    } else if rs[0].area < t {
      KeptPrefixIsAtLeast(rs[1..], t);
      if 1 < |rs| {
        assert rs[1].area < t;
      }
    } else {
      KeptPrefixIsAtLeast(rs[1..], t);
      assert rs[..KeptCount(rs, t)] == [rs[0]] + rs[1..][..KeptCount(rs[1..], t)];
    }
  }

  /**
   * What the loop returns, as written: the threshold is the x-coordinate of
   * the first vertex of the second-largest candidate, compared against areas.
   * With no candidate the loop body never runs; with one, `rectangles[1]` fails.
   */
  function AsWrittenSelection(candidates: seq<Candidate>): Result<seq<BoundingBox>, IndexError> {
    var rs := SortByArea(candidates);
    if |rs| == 0 then Success([])
    else if |rs| == 1 then Failure(IndexError)
    else Success(Boxes(rs[..KeptCount(rs, rs[1].firstVertexX as real)]))
  }

  /**
   * The selection loop of `func`: sort, then crop candidates in area order
   * until one is smaller than the threshold.
   */
  method SelectCards(candidates: seq<Candidate>) returns (r: Result<seq<BoundingBox>, IndexError>)
    ensures r == AsWrittenSelection(candidates)
  {
    var rectangles := SortByArea(candidates);
    var cropped: seq<BoundingBox> := [];
    var i := 0;
    while i < |rectangles|
      invariant 0 <= i <= |rectangles|
      invariant 0 < i ==> 2 <= |rectangles|
      invariant 0 < i ==> forall j :: 0 <= j < i ==> rectangles[j].area >= rectangles[1].firstVertexX as real
      invariant cropped == Boxes(rectangles[..i])
    {
      if |rectangles| < 2 {
        return Failure(IndexError);
      }
      if rectangles[i].area < rectangles[1].firstVertexX as real {
        assert forall j :: 0 <= j < i ==> rectangles[j].area >= rectangles[1].firstVertexX as real;
        break;
      }
      BoxesExtend(rectangles, i);
      cropped := cropped + [rectangles[i].box];
      forall j | 0 <= j < i + 1 ensures rectangles[j].area >= rectangles[1].firstVertexX as real {
        if j == i {
        }
      }
      i := i + 1;
    }
    if 0 < |rectangles| {
      KeptCountIs(rectangles, rectangles[1].firstVertexX as real, i);
    }
    return Success(cropped);
  }

  /** The selection fails exactly when a single candidate was found. */
  lemma SelectionFailsIff(candidates: seq<Candidate>)
    ensures AsWrittenSelection(candidates).Failure? <==> |candidates| == 1
    ensures |candidates| == 0 ==> AsWrittenSelection(candidates) == Success([])
  {
  }

  /**
   * With at least two candidates, the selection is the boxes of the
   * candidates whose area reaches the threshold, largest first; none of the
   * others is kept.
   */
  lemma SelectionKeepsAtLeast(candidates: seq<Candidate>)
    requires 2 <= |candidates|
    ensures var rs := SortByArea(candidates);
            AsWrittenSelection(candidates) == Success(Boxes(AtLeast(rs, rs[1].firstVertexX as real)))
  {
    var rs := SortByArea(candidates);
    SortByAreaSorted(candidates);
    KeptPrefixIsAtLeast(rs, rs[1].firstVertexX as real);
  }

  // ---------------------------------------------------------------------
  // The threshold as the surrounding design describes it

  /**
   * The rule with the threshold meant by the design: the area of the
   * second-largest candidate. Fewer than two candidates stays an error for one
   * candidate and an empty result for none.
   */
  function IntendedSelection(candidates: seq<Candidate>): Result<seq<BoundingBox>, IndexError> {
    var rs := SortByArea(candidates);
    if |rs| == 0 then Success([])
    else if |rs| == 1 then Failure(IndexError)
    else Success(Boxes(rs[..KeptCount(rs, rs[1].area)]))
  }

  /**
   * With at least two candidates the intended rule keeps the two largest and
   * every candidate at least as large as the second, and nothing smaller.
   */
  lemma IntendedKeepsSecondLargest(candidates: seq<Candidate>)
    requires 2 <= |candidates|
    ensures var rs := SortByArea(candidates);
            var r := IntendedSelection(candidates);
            r.Success? && 2 <= |r.value| && r.value == Boxes(AtLeast(rs, rs[1].area))
  {
    var rs := SortByArea(candidates);
    SortByAreaSorted(candidates);
    KeptPrefixIsAtLeast(rs, rs[1].area);
    assert KeptCount(rs, rs[1].area) >= 2 by {
      assert rs[0].area >= rs[1].area;
      if |rs| == 2 {
      } else {
        assert KeptCount(rs[1..], rs[1].area) >= 1;
      }
    }
  }

  /**
   * Two cards of areas 100 and 90 whose second has its first vertex at x = 95:
   * as written only the larger card is cropped; the intended rule keeps both.
   */
  lemma ThresholdComparesAreaWithCoordinate()
    ensures var big := Candidate(100.0, 0, BoundingBox(0, 0, 10, 10));
            var small := Candidate(90.0, 95, BoundingBox(95, 0, 10, 9));
            AsWrittenSelection([big, small]) == Success([big.box])
            && IntendedSelection([big, small]) == Success([big.box, small.box])
  {
    var big := Candidate(100.0, 0, BoundingBox(0, 0, 10, 10));
    var small := Candidate(90.0, 95, BoundingBox(95, 0, 10, 9));
    assert [big, small][1..] == [small];
    assert SortByArea([small]) == [small];
    assert SortByArea([big, small]) == [big, small];
    var rs := [big, small];
    assert KeptCount(rs[1..], 95.0) == 0;
    assert KeptCount(rs, 95.0) == 1;
    assert rs[..1] == [big];
    assert KeptCount(rs[1..][1..], 90.0) == 0;
    assert KeptCount(rs[1..], 90.0) == 1;
    assert KeptCount(rs, 90.0) == 2;
    assert rs[..2] == rs;
    assert Boxes(rs[..1]) == [big.box];
    assert Boxes(rs) == [big.box, small.box];
    assert AsWrittenSelection(rs) == Success([big.box]);
    assert IntendedSelection(rs) == Success([big.box, small.box]);
  }
}
