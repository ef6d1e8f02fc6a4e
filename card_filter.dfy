/**
 * The two passes task.py makes over the OCR text of the cards before parsing
 * them: cards stamped "Deleted" are dropped (their serial-number box reads a
 * lone `E`) and the survivors are upper-cased; then the first `PHOTO` and the
 * first `AVAILABLE` line of each card are removed in place.
 */
module CardFilter {
  import opened Wrappers
  import opened Text

  // ---------------------------------------------------------------------
  // Dropping watermarked cards (task.py:79-87)

  /** Some line of the card is exactly `E`, compared before upper-casing. */
  predicate Watermarked(message: seq<String>) {
    exists k :: 0 <= k < |message| && message[k] == "E"
  }

  /** `[item.upper() for item in message]` */
  function UpperLines(message: seq<String>): (r: seq<String>)
    ensures |r| == |message| && forall k :: 0 <= k < |r| ==> r[k] == Upper(message[k])
  {
    seq(|message|, k requires 0 <= k < |message| => Upper(message[k]))
  }

  /** The cards the filter keeps, upper-cased, in their order. */
  function Survivors(messages: seq<seq<String>>): seq<seq<String>> {
    if |messages| == 0 then []
    else
      var last := messages[|messages| - 1];
      Survivors(messages[..|messages| - 1]) + if Watermarked(last) then [] else [UpperLines(last)]
  }

  /** The positions of the cards without an `E` line, in increasing order. */
  function SurvivorIndices(messages: seq<seq<String>>): seq<nat> {
    if |messages| == 0 then []
    else
      var n := |messages| - 1;
      SurvivorIndices(messages[..n]) + if Watermarked(messages[n]) then [] else [n]
  }

  /**
   * The surviving positions are increasing, and a position survives exactly
   * when its card has no line equal to `E`.
   */
  lemma {:induction false} SurvivorIndicesSpec(messages: seq<seq<String>>)
    ensures var idx := SurvivorIndices(messages);
            (forall a, b :: 0 <= a < b < |idx| ==> idx[a] < idx[b])
            && (forall k :: 0 <= k < |idx| ==> idx[k] < |messages|)
            && (forall i :: 0 <= i < |messages| ==> (i in idx <==> !Watermarked(messages[i])))
  {
    if |messages| > 0 {
      var n := |messages| - 1;
      var front := messages[..n];
      SurvivorIndicesSpec(front);
      forall i | 0 <= i < n ensures messages[i] == front[i] { }
    }
  }

  /**
   * The k-th surviving card is the upper-cased card at the k-th surviving
   * position: survivors keep their order, their length and their lines, each
   * upper-cased.
   */
  lemma {:induction false} SurvivorsAt(messages: seq<seq<String>>)
    ensures var idx := SurvivorIndices(messages);
            |Survivors(messages)| == |idx|
            && forall k :: 0 <= k < |idx| ==> idx[k] < |messages| && Survivors(messages)[k] == UpperLines(messages[idx[k]])
  {
    if |messages| > 0 {
      var n := |messages| - 1;
      SurvivorsAt(messages[..n]);
      SurvivorIndicesSpec(messages[..n]);
      var idx := SurvivorIndices(messages[..n]);
      forall k | 0 <= k < |idx| ensures messages[..n][idx[k]] == messages[idx[k]] { }
    }
  }

  /** The filter loop: a flag cleared at the first `E` line, then the upper-cased copy of a clean card. */
  method DropWatermarked(messages: seq<seq<String>>) returns (profiles: seq<seq<String>>)
    ensures profiles == Survivors(messages)
  {
    profiles := [];
    var n := 0;
    while n < |messages|
      invariant 0 <= n <= |messages|
      invariant profiles == Survivors(messages[..n])
    {
      var message := messages[n];
      var x := true;
      var k := 0;
      while k < |message|
        invariant 0 <= k <= |message|
        invariant forall j :: 0 <= j < k ==> message[j] != "E"
      {
        if message[k] == "E" {
          x := false;
          break;
        }
        k := k + 1;
      }
      assert x <==> !Watermarked(message);
      if x {
        profiles := profiles + [UpperLines(message)];
      }
      assert messages[..n + 1][..n] == messages[..n];
      n := n + 1;
    }
    assert messages[..n] == messages;
  }

  /** The check happens before upper-casing: a lower-case `e` line does not drop its card. */
  lemma LowerCaseSurvives()
    ensures Survivors([["101", "e"]]) == [["101", "E"]]
  {
    var m := ["101", "e"];
    assert !Watermarked(m) by {
      assert m[0] != "E" && m[1] != "E";
    }
    var none: seq<seq<String>> := [];
    assert [m][..0] == none;
    assert Upper("e") == "E";
    assert Upper("101") == "101";
    assert UpperLines(m) == ["101", "E"];
  }

  // ---------------------------------------------------------------------
  // Removing PHOTO and AVAILABLE (task.py:90-94)

  /** The position of the first occurrence of `w`, if any. */
  function IndexOf(p: seq<String>, w: String): (r: Option<nat>)
    ensures r.None? <==> w !in p
    ensures r.Some? ==> r.value < |p| && p[r.value] == w && forall j :: 0 <= j < r.value ==> p[j] != w
  {
    if |p| == 0 then None
    else if p[0] == w then Some(0)
    else
      match IndexOf(p[1..], w)
      case None => None
      case Some(i) => Some(i + 1)
  }

  /** `list.remove(w)`: deletes the first occurrence; the caller has checked that there is one. */
  function Remove(p: seq<String>, w: String): (r: seq<String>)
    requires w in p
    ensures |r| == |p| - 1
  {
    var i := IndexOf(p, w).value;
    p[..i] + p[i + 1..]
  }

  /** Removing takes away exactly one copy of `w`. */
  lemma RemoveCount(p: seq<String>, w: String)
    requires w in p
    ensures multiset(Remove(p, w)) == multiset(p) - multiset{w}
  {
    var i := IndexOf(p, w).value;
    assert p == p[..i] + [w] + p[i + 1..];
  }

  /** The lines of `p` that are not in `ws`, in order. */
  function Except(p: seq<String>, ws: set<String>): seq<String> {
    if |p| == 0 then []
    else (if p[0] in ws then [] else [p[0]]) + Except(p[1..], ws)
  }

  lemma {:induction false} ExceptAppend(a: seq<String>, b: seq<String>, ws: set<String>)
    ensures Except(a + b, ws) == Except(a, ws) + Except(b, ws)
  {
    if |a| == 0 {
      assert a + b == b;
    } else {
      var head := if a[0] in ws then [] else [a[0]];
      assert (a + b)[0] == a[0];
      assert (a + b)[1..] == a[1..] + b;
      assert Except(a + b, ws) == head + Except(a[1..] + b, ws);
      ExceptAppend(a[1..], b, ws);
      assert Except(a, ws) == head + Except(a[1..], ws);
    }
  }

  lemma ExceptDropped(w: String, y: seq<String>, ws: set<String>)
    requires w in ws
    ensures Except([w] + y, ws) == Except(y, ws)
  {
    assert ([w] + y)[0] == w;
    assert ([w] + y)[1..] == y;
  }

  /** Removing one line of `ws` leaves the other lines, in their order. */
  lemma RemoveKeepsOthers(p: seq<String>, w: String, ws: set<String>)
    requires w in p && w in ws
    ensures Except(Remove(p, w), ws) == Except(p, ws)
  {
    var i := IndexOf(p, w).value;
    var x, y := p[..i], p[i + 1..];
    var wy := [w] + y;
    assert p == x + wy;
    ExceptAppend(x, wy, ws);
    ExceptDropped(w, y, ws);
    ExceptAppend(x, y, ws);
    assert Remove(p, w) == x + y;
  }

  /** One card after the cleanup: the first PHOTO, then the first AVAILABLE, are gone. */
  function CleanCard(profile: seq<String>): seq<String> {
    var p := if "PHOTO" in profile then Remove(profile, "PHOTO") else profile;
    if "AVAILABLE" in p then Remove(p, "AVAILABLE") else p
  }

  /** The cleanup takes away one PHOTO and one AVAILABLE where present, and nothing else. */
  lemma CleanCardCount(profile: seq<String>)
    ensures multiset(CleanCard(profile)) == multiset(profile) - multiset{"PHOTO", "AVAILABLE"}
  {
    var p := if "PHOTO" in profile then Remove(profile, "PHOTO") else profile;
    RemoveIfPresent(profile, "PHOTO");
    RemoveIfPresent(p, "AVAILABLE");
    SubtractTwice(multiset(profile), "PHOTO", "AVAILABLE");
  }

  lemma RemoveIfPresent(p: seq<String>, w: String)
    ensures multiset(if w in p then Remove(p, w) else p) == multiset(p) - multiset{w}
  {
    if w in p {
      RemoveCount(p, w);
    } else {
      assert multiset(p)[w] == 0;
    }
  }

  lemma SubtractTwice(m: multiset<String>, a: String, b: String)
    ensures m - multiset{a} - multiset{b} == m - multiset{a, b}
  {
  }

  /** Every line other than PHOTO and AVAILABLE stays, in its order. */
  lemma CleanCardKeepsOthers(profile: seq<String>)
    ensures Except(CleanCard(profile), {"PHOTO", "AVAILABLE"}) == Except(profile, {"PHOTO", "AVAILABLE"})
  {
    var ws := {"PHOTO", "AVAILABLE"};
    var p := if "PHOTO" in profile then Remove(profile, "PHOTO") else profile;
    if "PHOTO" in profile {
      RemoveKeepsOthers(profile, "PHOTO", ws);
    }
    if "AVAILABLE" in p {
      RemoveKeepsOthers(p, "AVAILABLE", ws);
    }
  }

  /** The cleanup loop, updating each card of the list in place. */
  method Cleanup(profiles: array<seq<String>>)
    modifies profiles
    ensures forall i :: 0 <= i < profiles.Length ==> profiles[i] == CleanCard(old(profiles[i]))
  {
    ghost var original := profiles[..];
    for i := 0 to profiles.Length
      invariant forall j :: 0 <= j < i ==> profiles[j] == CleanCard(original[j])
      invariant forall j :: i <= j < profiles.Length ==> profiles[j] == original[j]
    {
      var profile := profiles[i];
      if "PHOTO" in profile {
        profile := Remove(profile, "PHOTO");
      }
      if "AVAILABLE" in profile {
        profile := Remove(profile, "AVAILABLE");
      }
      assert profile == CleanCard(original[i]);
      profiles[i] := profile;
      forall j | 0 <= j < i + 1 ensures profiles[j] == CleanCard(original[j]) {
        if j == i {
        }
      }
    }
  }
}
