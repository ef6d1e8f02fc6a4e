/**
 * The regular expressions of the `Profile` extractors in task.py, one line at
 * a time. Each pattern is written out as the match `re.search(pattern, line,
 * re.IGNORECASE)` finds: the leftmost start at which the pattern succeeds,
 * with greedy and lazy quantifiers resolved in the order the regex engine
 * tries them.
 */
module LinePatterns {
  import opened Wrappers
  import opened Text

  datatype Gender = M | F
  datatype Relation = FTHR | HSBN | OTHR

  // ---------------------------------------------------------------------
  // r'AGE.+' and the digits of the line

  /** `AGE.+` matches from `i`: the literal, then at least one character that is not a line feed. */
  predicate AgeAt(s: String, i: nat) {
    LitAt(s, i, "AGE") && i + 3 < |s| && s[i + 3] != '\n'
  }

  /** `re.search(r'AGE.+', s, re.IGNORECASE)` finds a match. */
  predicate MentionsAge(s: String) {
    FirstFrom(s, 0, AgeAt).Some?
  }

  /** The search succeeds exactly when `AGE.+` matches somewhere in the line. */
  lemma MentionsAgeIff(s: String)
    ensures MentionsAge(s) <==> exists i :: AgeAt(s, i)
  {
    if exists i :: AgeAt(s, i) {
      var i: nat :| AgeAt(s, i);
      assert i <= |s|;
    }
  }

  /** `int(age)` raises: the line mentions an age but holds no digit. */
  predicate AgeRaisesOn(s: String) {
    MentionsAge(s) && Digits(s) == []
  }

  /** The age a line sets: the number spelled by all of its digits, read in order. */
  function AgeValue(s: String): Option<nat> {
    if MentionsAge(s) && Digits(s) != [] then Some(DecimalValue(Digits(s))) else None
  }

  // ---------------------------------------------------------------------
  // r"GENDER.*?(FEMALE|MALE)"

  predicate GenderWordAt(s: String, k: nat) {
    LitAt(s, k, "FEMALE") || LitAt(s, k, "MALE")
  }

  /** Where the lazy `.*?` stops growing: a gender word starts here, or a line feed ends `.`. */
  predicate LazyStopAt(s: String, k: nat) {
    GenderWordAt(s, k) || (k < |s| && s[k] == '\n')
  }

  /**
   * `.*?(FEMALE|MALE)` tried from `j`: the lazy dot grows one character at a
   * time, FEMALE is tried before MALE at each length, and a line feed stops it.
   */
  function LazyGender(s: String, j: nat): Option<Gender>
    requires j <= |s|
  {
    match FirstFrom(s, j, LazyStopAt)
    case None => None
    case Some(k) =>
      if LitAt(s, k, "FEMALE") then Some(F) else if LitAt(s, k, "MALE") then Some(M) else None
  }

  predicate GenderAt(s: String, i: nat) {
    i + 6 <= |s| && LitAt(s, i, "GENDER") && LazyGender(s, i + 6).Some?
  }

  /** The gender a line sets: `'M' if match.group(1).upper() == "MALE" else 'F'`. */
  function GenderInLine(s: String): Option<Gender> {
    match FirstFrom(s, 0, GenderAt)
    case None => None
    case Some(i) => LazyGender(s, i + 6)
  }

  predicate NoNewlineIn(s: String, a: nat, b: nat) {
    forall m :: a <= m < b && m < |s| ==> s[m] != '\n'
  }

  /** A GENDER at `i` is followed, on the same line, by FEMALE or MALE at `k`. */
  predicate GenderReaches(s: String, i: nat, k: nat) {
    LitAt(s, i, "GENDER") && i + 6 <= k <= |s| && GenderWordAt(s, k) && NoNewlineIn(s, i + 6, k)
  }

  lemma LazyGenderSpec(s: String, j: nat)
    requires j <= |s|
    ensures LazyGender(s, j).Some? <==> exists k: nat :: j <= k <= |s| && GenderWordAt(s, k) && NoNewlineIn(s, j, k)
    ensures LazyGender(s, j).Some? ==>
              exists k: nat :: j <= k <= |s| && GenderWordAt(s, k) && NoNewlineIn(s, j, k)
                          && (forall m :: j <= m < k ==> !GenderWordAt(s, m))
                          && (LazyGender(s, j) == Some(F) <==> LitAt(s, k, "FEMALE"))
  {
    var r := FirstFrom(s, j, LazyStopAt);
    if r.Some? {
      var k := r.value;
      if GenderWordAt(s, k) {
        assert NoNewlineIn(s, j, k) by {
          forall m | j <= m < k && m < |s| ensures s[m] != '\n' {
            assert !LazyStopAt(s, m);
          }
        }
        assert forall m :: j <= m < k ==> !GenderWordAt(s, m) by {
          forall m | j <= m < k ensures !GenderWordAt(s, m) {
            assert !LazyStopAt(s, m);
          }
        }
        assert LazyGender(s, j) == Some(F) <==> LitAt(s, k, "FEMALE");
      } else {
        assert k < |s| && s[k] == '\n';
        forall k': nat | j <= k' <= |s| && GenderWordAt(s, k')
          ensures !NoNewlineIn(s, j, k')
        {
          assert LazyStopAt(s, k');
          FirstFromAtMost(s, j, LazyStopAt, k');
          assert k != k';
          assert j <= k < k' && k < |s| && s[k] == '\n';
        }
      }
    } else {
      forall k': nat | j <= k' <= |s| && GenderWordAt(s, k')
        ensures false
      {
        assert LazyStopAt(s, k');
      }
    }
  }

  lemma GenderAtSpec(s: String, i: nat)
    ensures GenderAt(s, i) <==> exists k: nat :: GenderReaches(s, i, k)
  {
    if i + 6 <= |s| {
      LazyGenderSpec(s, i + 6);
      if GenderAt(s, i) {
        var k: nat :| i + 6 <= k <= |s| && GenderWordAt(s, k) && NoNewlineIn(s, i + 6, k);
        assert GenderReaches(s, i, k);
      }
      if exists k: nat :: GenderReaches(s, i, k) {
        var k: nat :| GenderReaches(s, i, k);
        assert i + 6 <= k <= |s| && GenderWordAt(s, k) && NoNewlineIn(s, i + 6, k);
      }
    }
  }

  /** A line sets a gender exactly when some GENDER is followed on the same line by FEMALE or MALE. */
  lemma GenderInLineFound(s: String)
    ensures GenderInLine(s).Some? <==> exists i: nat, k: nat :: GenderReaches(s, i, k)
  {
    var r := FirstFrom(s, 0, GenderAt);
    if r.Some? {
      var i := r.value;
      GenderAtSpec(s, i);
      var k: nat :| GenderReaches(s, i, k);
    } else {
      forall i: nat, k: nat | GenderReaches(s, i, k)
        ensures false
      {
        GenderAtSpec(s, i);
      }
    }
  }

  /**
   * The gender a line sets comes from the leftmost GENDER that reaches a
   * gender word on its line: it is F exactly when the earliest gender word
   * after that GENDER is FEMALE.
   */
  lemma GenderInLineValue(s: String)
    requires GenderInLine(s).Some?
    ensures exists i: nat, k: nat :: GenderReaches(s, i, k)
              && (forall m :: i + 6 <= m < k ==> !GenderWordAt(s, m))
              && (forall i': nat, k': nat :: i' < i ==> !GenderReaches(s, i', k'))
              && (GenderInLine(s) == Some(F) <==> LitAt(s, k, "FEMALE"))
  {
    var i := FirstFrom(s, 0, GenderAt).value;
    LazyGenderSpec(s, i + 6);
    var k: nat :| i + 6 <= k <= |s| && GenderWordAt(s, k) && NoNewlineIn(s, i + 6, k)
                  && (forall m :: i + 6 <= m < k ==> !GenderWordAt(s, m))
                  && (LazyGender(s, i + 6) == Some(F) <==> LitAt(s, k, "FEMALE"));
    assert GenderReaches(s, i, k);
    forall i': nat, k': nat | i' < i
      ensures !GenderReaches(s, i', k')
    {
      GenderAtSpec(s, i');
    }
  }

  // ---------------------------------------------------------------------
  // r'HOUSE\s*[^a-zA-Z0-9]*NUMBER\s*[^a-zA-Z0-9]*([\w\s-]*)'

  /** The regex class `[\w\s-]`. */
  predicate AddressChar(c: char) {
    IsWord(c) || IsSpace(c) || c == '-'
  }

  /**
   * `HOUSE\s*[^a-zA-Z0-9]*NUMBER` matches from `h`. `\s` lies inside
   * `[^a-zA-Z0-9]`, so the two greedy fillers together take the whole run of
   * non-alphanumeric characters, and NUMBER (which starts with a letter) can
   * only follow the end of that run.
   */
  predicate HouseNumberAt(s: String, h: nat) {
    h + 5 <= |s| && LitAt(s, h, "HOUSE") && LitAt(s, RunEnd(s, h + 5, NotAlnum), "NUMBER")
  }

  /**
   * What follows a HOUSE … NUMBER match at `h`: the filler after NUMBER, then
   * the greedy `([\w\s-]*)` capture with non-word characters trimmed off
   * both ends.
   */
  function AddressAfter(s: String, h: nat): String
    requires HouseNumberAt(s, h)
  {
    AddressCapture(s, NumberEnd(s, h))
  }

  /** Where the filler after the NUMBER of a match at `h` ends. */
  function NumberEnd(s: String, h: nat): (p: nat)
    requires HouseNumberAt(s, h)
    ensures p <= |s|
  {
    var k := RunEnd(s, h + 5, NotAlnum);
    LitAtFits(s, k, "NUMBER");
    RunEnd(s, k + 6, NotAlnum)
  }

  /** The greedy `([\w\s-]*)` capture from `p`, with non-word characters trimmed off both ends. */
  function AddressCapture(s: String, p: nat): String
    requires p <= |s|
  {
    TrimWhile(s[p..RunEnd(s, p, AddressChar)], NotWord)
  }

  /** The address in a line whose leading non-word characters are already removed. */
  function AddressIn(s: String): Option<String> {
    match FirstFrom(s, 0, HouseNumberAt)
    case None => None
    case Some(h) => Some(AddressAfter(s, h))
  }

  /**
   * The address a line sets: `re.sub(r'^[^\w]+', '', item)`, the search, then
   * `re.sub(r'^\W+|\W+$', '', match.group(1))`.
   */
  function AddressInLine(line: String): Option<String> {
    AddressIn(line[RunEnd(line, 0, NotWord)..])
  }

  /** A HOUSE … NUMBER match in the stripped line is one in the original line, shifted. */
  lemma HouseNumberAtShift(line: String, a: nat, h: nat)
    requires a + h <= |line|
    ensures HouseNumberAt(line[a..], h) <==> HouseNumberAt(line, a + h)
  {
    if a + h + 5 <= |line| {
      LitAtShift(line, a, h, "HOUSE");
      RunEndShift(line, a, h + 5, NotAlnum);
      LitAtShift(line, a, RunEnd(line[a..], h + 5, NotAlnum), "NUMBER");
    }
  }

  /** A line sets an address exactly when HOUSE, filler and NUMBER occur in it. */
  lemma AddressInLineSome(line: String)
    ensures AddressInLine(line).Some? <==> exists h: nat :: HouseNumberAt(line, h)
  {
    var a := RunEnd(line, 0, NotWord);
    var s := line[a..];
    if AddressInLine(line).Some? {
      var h := FirstFrom(s, 0, HouseNumberAt).value;
      HouseNumberAtShift(line, a, h);
    } else {
      forall h: nat | HouseNumberAt(line, h)
        ensures false
      {
        LitAtChars(line, h, "HOUSE");
        assert UpperChar(line[h + 0]) == UpperChar("HOUSE"[0]);
        assert IsWord(line[h]);
        assert a <= h;
        HouseNumberAtShift(line, a, h - a);
      }
    }
  }

  /**
   * The shape of an address: empty, or starting and ending with a word
   * character, and made only of word characters, whitespace and hyphens.
   */
  predicate AddressShaped(v: String) {
    (v == [] || (IsWord(v[0]) && IsWord(v[|v| - 1])))
    && forall k :: 0 <= k < |v| ==> AddressChar(v[k])
  }

  /** The trimmed `([\w\s-]*)` capture that starts at `p`. */
  lemma {:induction false} AddressCaptureShape(s: String, p: nat)
    requires p <= |s|
    ensures AddressShaped(AddressCapture(s, p))
  {
    var c := s[p..RunEnd(s, p, AddressChar)];
    assert forall m :: 0 <= m < |c| ==> AddressChar(c[m]);
    var v := TrimWhile(c, NotWord);
    var b := RunEnd(c, 0, NotWord);
    forall m | 0 <= m < |v| ensures AddressChar(v[m]) {
      assert v[m] == c[b + m];
    }
  }

  lemma AddressAfterShape(s: String, h: nat)
    requires HouseNumberAt(s, h)
    ensures AddressShaped(AddressAfter(s, h))
  {
    AddressCaptureShape(s, NumberEnd(s, h));
  }

  /** An address has no leading or trailing non-word character (it may be empty). */
  lemma AddressInLineShape(line: String)
    requires AddressInLine(line).Some?
    ensures AddressShaped(AddressInLine(line).value)
  {
    var s := line[RunEnd(line, 0, NotWord)..];
    var h := FirstFrom(s, 0, HouseNumberAt).value;
    assert AddressInLine(line).value == AddressAfter(s, h);
    AddressAfterShape(s, h);
  }

  // ---------------------------------------------------------------------
  // NAME, FATHER'S NAME, HUSBAND'S NAME, OTHERS

  /** `\W*NAME` tried from `b`: NAME must start where the greedy `\W*` stops. */
  function NameAfterFiller(s: String, b: nat): (r: Option<nat>)
    requires b <= |s|
    ensures r.Some? ==> b + 4 <= r.value <= |s| && LitAt(s, r.value - 4, "NAME")
                        && forall m :: b <= m < r.value - 4 ==> NotWord(s[m])
  {
    var e := RunEnd(s, b, NotWord);
    if LitAt(s, e, "NAME") then LitAtFits(s, e, "NAME"); Some(e + 4) else None
  }

  /** `S?\W*NAME` from `a`; the greedy `?` tries the S first. */
  function OptionalS(s: String, a: nat): (r: Option<nat>)
    requires a <= |s|
    ensures r.Some? ==> a + 4 <= r.value <= |s| && LitAt(s, r.value - 4, "NAME")
  {
    var withS := if a < |s| && UpperChar(s[a]) == 'S' then NameAfterFiller(s, a + 1) else None;
    if withS.Some? then withS else NameAfterFiller(s, a)
  }

  /** `'?S?\W*NAME` from `a`; the greedy `?` tries the apostrophe first. */
  function OptionalQuote(s: String, a: nat): (r: Option<nat>)
    requires a <= |s|
    ensures r.Some? ==> a + 4 <= r.value <= |s| && LitAt(s, r.value - 4, "NAME")
  {
    var withQuote := if a < |s| && s[a] == '\'' then OptionalS(s, a + 1) else None;
    if withQuote.Some? then withQuote else OptionalS(s, a)
  }

  /** `KIN'?S?\W*NAME` matched from `i`: where its NAME ends. */
  function KinNameEnd(s: String, i: nat, kin: String): (r: Option<nat>)
    ensures r.Some? ==> i + |kin| + 4 <= r.value <= |s| && LitAt(s, i, kin) && LitAt(s, r.value - 4, "NAME")
  {
    if i + |kin| <= |s| && LitAt(s, i, kin) then OptionalQuote(s, i + |kin|) else None
  }

  predicate FatherAt(s: String, i: nat) { KinNameEnd(s, i, "FATHER").Some? }
  predicate HusbandAt(s: String, i: nat) { KinNameEnd(s, i, "HUSBAND").Some? }
  predicate OthersAt(s: String, i: nat) { i + 6 <= |s| && LitAt(s, i, "OTHERS") }
  predicate NameAt(s: String, i: nat) { i + 4 <= |s| && LitAt(s, i, "NAME") }

  /** No whitespace at either end, and no line feed anywhere. */
  predicate StrippedOneLine(v: String) {
    (v == [] || (!IsSpace(v[0]) && !IsSpace(v[|v| - 1])))
    && forall k :: 0 <= k < |v| ==> v[k] != '\n'
  }

  /** `\W*(.*)` from `e`, then `.strip()`: the rest of the line after the non-word filler. */
  function CaptureRest(s: String, e: nat): (r: String)
    requires e <= |s|
    ensures StrippedOneLine(r)
  {
    var p := RunEnd(s, e, NotWord);
    var q := RunEnd(s, p, NotNewline);
    var c := s[p..q];
    var r := TrimWhile(c, IsSpace);
    var a := RunEnd(c, 0, IsSpace);
    forall k | 0 <= k < |r| ensures r[k] != '\n' {
      assert r[k] == c[a + k] == s[p + a + k];
      assert NotNewline(s[p + a + k]);
    }
    r
  }

  datatype Kinship = Kinship(relation: Relation, relative: String)

  /** What the `if`/`elif` chain of `extract_relation_info` makes of one line. */
  datatype LineRole = RelativeLine(kin: Kinship) | NameLine(name: String) | PlainLine

  /**
   * Which branch of the `if`/`elif` chain a line takes, and where its capture
   * group starts: `Some(rel)` for the father, husband and OTHERS patterns,
   * `None` for a plain NAME.
   */
  datatype Branch = Branch(relation: Option<Relation>, captureFrom: nat)

  function BranchOf(s: String): (b: Option<Branch>)
    ensures b.Some? ==> b.value.captureFrom <= |s|
  {
    var father := FirstFrom(s, 0, FatherAt);
    var husband := FirstFrom(s, 0, HusbandAt);
    var others := FirstFrom(s, 0, OthersAt);
    var name := FirstFrom(s, 0, NameAt);
    if father.Some? then Some(Branch(Some(FTHR), KinNameEnd(s, father.value, "FATHER").value))
    else if husband.Some? then Some(Branch(Some(HSBN), KinNameEnd(s, husband.value, "HUSBAND").value))
    else if others.Some? then Some(Branch(Some(OTHR), others.value + 6))
    else if name.Some? then Some(Branch(None, name.value + 4))
    else None
  }

  /** The line's role under the `if`/`elif` chain, with its `(.*)` group captured and stripped. */
  function RoleOf(s: String): LineRole {
    match BranchOf(s)
    case None => PlainLine
    case Some(b) =>
      var v := CaptureRest(s, b.captureFrom);
      if b.relation.Some? then RelativeLine(Kinship(b.relation.value, v)) else NameLine(v)
  }

  /** For a pattern that can only match inside the line, searching from 0 finds it iff it matches somewhere. */
  lemma FoundIffMatches(s: String, p: (String, nat) -> bool)
    requires forall i: nat :: p(s, i) ==> i <= |s|
    ensures FirstFrom(s, 0, p).Some? <==> exists i: nat :: p(s, i)
  {
    if exists i: nat :: p(s, i) {
      var i: nat :| p(s, i);
      assert i <= |s|;
    }
  }

  /**
   * The precedence of the chain: the father pattern is tried first, then the
   * husband pattern, then OTHERS; only a line none of them matches can give a
   * plain NAME.
   */
  lemma RoleOfSpec(s: String)
    ensures var r := RoleOf(s);
              (r.RelativeLine? && r.kin.relation == FTHR <==> exists i :: FatherAt(s, i))
              && (r.RelativeLine? && r.kin.relation == HSBN <==>
                    (forall i :: !FatherAt(s, i)) && exists i :: HusbandAt(s, i))
              && (r.RelativeLine? && r.kin.relation == OTHR <==>
                    (forall i :: !FatherAt(s, i)) && (forall i :: !HusbandAt(s, i)) && exists i :: OthersAt(s, i))
              && (r.NameLine? <==>
                    (forall i :: !FatherAt(s, i)) && (forall i :: !HusbandAt(s, i)) && (forall i :: !OthersAt(s, i))
                    && exists i :: NameAt(s, i))
  {
    FoundIffMatches(s, FatherAt);
    FoundIffMatches(s, HusbandAt);
    FoundIffMatches(s, OthersAt);
    FoundIffMatches(s, NameAt);
  }

  /** Every name the chain captures is stripped and stays on one line. */
  lemma RoleOfCapture(s: String)
    ensures RoleOf(s).RelativeLine? ==> StrippedOneLine(RoleOf(s).kin.relative)
    ensures RoleOf(s).NameLine? ==> StrippedOneLine(RoleOf(s).name)
  {
    if BranchOf(s).Some? {
      var b := BranchOf(s).value;
      var v := CaptureRest(s, b.captureFrom);
      assert RoleOf(s) == if b.relation.Some? then RelativeLine(Kinship(b.relation.value, v)) else NameLine(v);
    }
  }
}
