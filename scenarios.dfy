/**
 * Worked examples: what the extractors make of concrete OCR lines, and of one
 * whole voter card. Each line-level fact is its own small lemma; the card
 * lemma combines them.
 */
module Scenarios {
  import opened Wrappers
  import opened Text
  import opened LinePatterns
  import opened Profiles

  // ---------------------------------------------------------------------
  // Single lines

  /** The digits of a label without digits followed by a digit string are that string. */
  lemma DigitsAfterLabel(prefix: String, ds: String)
    requires forall k :: 0 <= k < |prefix| ==> !IsDigit(prefix[k])
    requires forall k :: 0 <= k < |ds| ==> IsDigit(ds[k])
    ensures Digits(prefix + ds) == ds
  {
    DigitsAppend(prefix, ds);
    DigitsEmpty(prefix);
    DigitsOfDigitString(ds);
  }

  lemma FortyFive()
    ensures DecimalValue("45") == 45
  {
    assert "45"[..1] == "4";
    assert "4"[..0] == "";
  }

  lemma ThirtyFive()
    ensures DecimalValue("35") == 35
  {
    assert "35"[..1] == "3";
    assert "3"[..0] == "";
  }

  lemma AgeLineDigits()
    ensures Digits("AGE : 45") == "45"
  {
    assert "AGE : 45" == "AGE : " + "45";
    DigitsAfterLabel("AGE : ", "45");
  }

  /** `AGE : 45` gives 45. */
  lemma AgeFortyFive()
    ensures AgeValue("AGE : 45") == Some(45)
  {
    assert AgeAt("AGE : 45", 0);
    AgeLineDigits();
    FortyFive();
  }

  /** Two digit strings, each after a label without digits, give their concatenation. */
  lemma DigitsOfTwoGroups(p: String, a: String, q: String, b: String)
    requires forall k :: 0 <= k < |p| ==> !IsDigit(p[k])
    requires forall k :: 0 <= k < |q| ==> !IsDigit(q[k])
    requires forall k :: 0 <= k < |a| ==> IsDigit(a[k])
    requires forall k :: 0 <= k < |b| ==> IsDigit(b[k])
    ensures Digits((p + a) + (q + b)) == a + b
  {
    DigitsAppend(p + a, q + b);
    DigitsAfterLabel(p, a);
    DigitsAfterLabel(q, b);
  }

  lemma GapDigits()
    ensures Digits("AGE : 3 5") == "35"
  {
    assert ("AGE : " + "3") + (" " + "5") == "AGE : 3 5";
    DigitsOfTwoGroups("AGE : ", "3", " ", "5");
    assert "3" + "5" == "35";
  }

  /** Every digit of the line counts, even across a gap: `AGE : 3 5` gives 35. */
  lemma AgeDigitsAcrossGap()
    ensures AgeValue("AGE : 3 5") == Some(35)
  {
    assert AgeAt("AGE : 3 5", 0);
    GapDigits();
    ThirtyFive();
  }

  /** An AGE line without a digit makes the constructor raise. */
  lemma AgeWithoutDigitsRaises()
    ensures Parse(["AGE : NA"]).Failure?
  {
    var s := "AGE : NA";
    assert AgeAt(s, 0);
    DigitsEmpty(s);
    assert AgeRaisesOn(["AGE : NA"][0]);
  }

  /** FEMALE is tried before MALE, so the MALE inside FEMALE is not taken. */
  lemma FemaleBeforeMale()
    ensures GenderInLine("GENDER FEMALE") == Some(F)
  {
    var s := "GENDER FEMALE";
    assert LazyStopAt(s, 7);
    assert !LazyStopAt(s, 6);
    assert GenderAt(s, 0);
  }

  const HouseLine: String := "HOUSE NUMBER 12-A"

  lemma HouseWord()
    ensures LitAt(HouseLine, 0, "HOUSE")
  {
    assert HouseLine[0..5] == "HOUSE";
    LitAtExact(HouseLine, 0, "HOUSE");
  }

  lemma NumberWord()
    ensures LitAt(HouseLine, 6, "NUMBER")
  {
    assert HouseLine[6..12] == "NUMBER";
    LitAtExact(HouseLine, 6, "NUMBER");
  }

  lemma HouseNumberFound()
    ensures HouseNumberAt(HouseLine, 0)
  {
    HouseWord();
    assert RunEnd(HouseLine, 5, NotAlnum) == 6;
    NumberWord();
  }

  lemma HouseCapture()
    ensures RunEnd(HouseLine, 12, NotAlnum) == 13
    ensures RunEnd(HouseLine, 13, AddressChar) == 17
    ensures HouseLine[13..17] == "12-A"
  {
  }

  lemma HouseTrimmed()
    ensures TrimWhile("12-A", NotWord) == "12-A"
  {
    assert RunEnd("12-A", 0, NotWord) == 0;
    assert RunStart("12-A", 4, NotWord) == 4;
  }

  /** `HOUSE NUMBER 12-A` gives the address `12-A`: the hyphen is part of `[\w\s-]`. */
  lemma HouseNumberTwelveA()
    ensures AddressInLine(HouseLine) == Some("12-A")
  {
    assert RunEnd(HouseLine, 0, NotWord) == 0;
    assert HouseLine[0..] == HouseLine;
    HouseNumberFound();
    assert FirstFrom(HouseLine, 0, HouseNumberAt) == Some(0);
    HouseCapture();
    assert NumberEnd(HouseLine, 0) == 13;
    HouseTrimmed();
    assert AddressCapture(HouseLine, 13) == "12-A";
  }

  lemma EmptyHouseFound()
    ensures HouseNumberAt("HOUSE NUMBER :", 0)
    ensures NumberEnd("HOUSE NUMBER :", 0) == 14
  {
    var s := "HOUSE NUMBER :";
    assert s[0..5] == "HOUSE";
    LitAtExact(s, 0, "HOUSE");
    assert RunEnd(s, 5, NotAlnum) == 6;
    assert s[6..12] == "NUMBER";
    LitAtExact(s, 6, "NUMBER");
    assert RunEnd(s, 12, NotAlnum) == 14;
  }

  /** A HOUSE NUMBER label with nothing after it still matches, with an empty address. */
  lemma EmptyHouseNumber()
    ensures AddressInLine("HOUSE NUMBER :") == Some("")
  {
    var s := "HOUSE NUMBER :";
    assert RunEnd(s, 0, NotWord) == 0;
    assert s[0..] == s;
    EmptyHouseFound();
    assert FirstFrom(s, 0, HouseNumberAt) == Some(0);
    assert RunEnd(s, 14, AddressChar) == 14;
    assert AddressCapture(s, 14) == "";
  }

  const FatherLine: String := "FATHERS NAME JOHN DOE"

  lemma FatherWords()
    ensures LitAt(FatherLine, 0, "FATHER")
    ensures LitAt(FatherLine, 8, "NAME")
  {
    assert FatherLine[0..6] == "FATHER";
    LitAtExact(FatherLine, 0, "FATHER");
    assert FatherLine[8..12] == "NAME";
    LitAtExact(FatherLine, 8, "NAME");
  }

  lemma FatherNameEnd()
    ensures KinNameEnd(FatherLine, 0, "FATHER") == Some(12)
  {
    FatherWords();
    assert RunEnd(FatherLine, 7, NotWord) == 8;
    assert NameAfterFiller(FatherLine, 7) == Some(12);
    assert OptionalS(FatherLine, 6) == Some(12);
  }

  lemma FatherRest()
    ensures RunEnd(FatherLine, 12, NotWord) == 13
    ensures RunEnd(FatherLine, 13, NotNewline) == 21
    ensures FatherLine[13..21] == "JOHN DOE"
  {
  }

  lemma JohnDoeStripped()
    ensures Strip("JOHN DOE") == "JOHN DOE"
  {
    assert RunEnd("JOHN DOE", 0, IsSpace) == 0;
    assert RunStart("JOHN DOE", 8, IsSpace) == 8;
    assert "JOHN DOE"[0..8] == "JOHN DOE";
  }

  lemma FatherCapture()
    ensures CaptureRest(FatherLine, 12) == "JOHN DOE"
  {
    FatherRest();
    JohnDoeStripped();
  }

  /** `FATHERS NAME JOHN DOE`: the optional S is taken, and the relative is JOHN DOE. */
  lemma FatherJohnDoe()
    ensures RoleOf(FatherLine) == RelativeLine(Kinship(FTHR, "JOHN DOE"))
  {
    FatherNameEnd();
    assert FatherAt(FatherLine, 0);
    assert FirstFrom(FatherLine, 0, FatherAt) == Some(0);
    FatherCapture();
  }

  // ---------------------------------------------------------------------
  // Lines that match nothing else

  /** A line in which none of FATHER, HUSBAND, OTHERS and NAME occurs is a plain line. */
  lemma PlainWhenAbsent(s: String)
    requires forall j: nat :: !LitAt(s, j, "FATHER")
    requires forall j: nat :: !LitAt(s, j, "HUSBAND")
    requires forall j: nat :: !LitAt(s, j, "OTHERS")
    requires forall j: nat :: !LitAt(s, j, "NAME")
    ensures RoleOf(s) == PlainLine
  {
    FoundIffMatches(s, FatherAt);
    FoundIffMatches(s, HusbandAt);
    FoundIffMatches(s, OthersAt);
    FoundIffMatches(s, NameAt);
  }

  /** A line that starts with a word character and holds no HOUSE gives no address. */
  lemma NoAddress(s: String, m: nat)
    requires |s| > 0 && IsWord(s[0])
    requires m < 5 && forall k :: 0 <= k < |s| ==> UpperChar(s[k]) != UpperChar("HOUSE"[m])
    ensures AddressInLine(s) == None
  {
    assert RunEnd(s, 0, NotWord) == 0;
    assert s[0..] == s;
    LitAbsent(s, "HOUSE", m);
  }

  lemma SerialLine()
    ensures !MentionsAge("101") && GenderInLine("101") == None
    ensures AddressInLine("101") == None && RoleOf("101") == PlainLine
  {
    var s := "101";
    LitAbsent(s, "AGE", 0);
    LitAbsent(s, "GENDER", 0);
    NoAddress(s, 0);
    LitAbsent(s, "FATHER", 0);
    LitAbsent(s, "HUSBAND", 0);
    LitAbsent(s, "OTHERS", 0);
    LitAbsent(s, "NAME", 0);
  }

  lemma EpicLineNoAgeGender()
    ensures !MentionsAge("EPIC123") && GenderInLine("EPIC123") == None
  {
    LitAbsent("EPIC123", "AGE", 0);
    LitAbsent("EPIC123", "GENDER", 0);
  }

  lemma EpicLinePlain()
    ensures RoleOf("EPIC123") == PlainLine
  {
    var s := "EPIC123";
    LitAbsent(s, "FATHER", 0);
    LitAbsent(s, "HUSBAND", 0);
    LitAbsent(s, "OTHERS", 0);
    LitAbsent(s, "NAME", 0);
    PlainWhenAbsent(s);
  }

  lemma EpicLine()
    ensures !MentionsAge("EPIC123") && GenderInLine("EPIC123") == None
    ensures AddressInLine("EPIC123") == None && RoleOf("EPIC123") == PlainLine
  {
    EpicLineNoAgeGender();
    NoAddress("EPIC123", 0);
    EpicLinePlain();
  }

  lemma AgeLinePlain()
    ensures RoleOf("AGE : 45") == PlainLine
  {
    var s := "AGE : 45";
    LitAbsent(s, "FATHER", 0);
    LitAbsent(s, "HUSBAND", 0);
    LitAbsent(s, "OTHERS", 0);
    LitAbsent(s, "NAME", 0);
    PlainWhenAbsent(s);
  }

  lemma AgeLineRest()
    ensures GenderInLine("AGE : 45") == None
    ensures AddressInLine("AGE : 45") == None && RoleOf("AGE : 45") == PlainLine
  {
    LitAbsent("AGE : 45", "GENDER", 2);
    NoAddress("AGE : 45", 0);
    AgeLinePlain();
  }

  lemma GenderLineNoAge()
    ensures !MentionsAge("GENDER FEMALE")
  {
    var s := "GENDER FEMALE";
    assert forall j: nat :: j <= |s| ==> !AgeAt(s, j);
  }

  lemma GenderLinePlain()
    ensures RoleOf("GENDER FEMALE") == PlainLine
  {
    var s := "GENDER FEMALE";
    LitAbsent(s, "FATHER", 2);
    LitAbsent(s, "HUSBAND", 0);
    LitAbsent(s, "OTHERS", 0);
    LitAbsentPair(s, "NAME", 0);
    PlainWhenAbsent(s);
  }

  lemma GenderLineRest()
    ensures !MentionsAge("GENDER FEMALE") && AddressInLine("GENDER FEMALE") == None
    ensures RoleOf("GENDER FEMALE") == PlainLine
  {
    GenderLineNoAge();
    NoAddress("GENDER FEMALE", 0);
    GenderLinePlain();
  }

  lemma HouseLinePlain()
    ensures RoleOf(HouseLine) == PlainLine
  {
    var s := HouseLine;
    LitAbsent(s, "FATHER", 0);
    LitAbsent(s, "HUSBAND", 6);
    LitAbsent(s, "OTHERS", 1);
    LitAbsentPair(s, "NAME", 0);
    PlainWhenAbsent(s);
  }

  lemma HouseLineRest()
    ensures !MentionsAge(HouseLine) && GenderInLine(HouseLine) == None
    ensures RoleOf(HouseLine) == PlainLine
  {
    LitAbsent(HouseLine, "AGE", 1);
    LitAbsent(HouseLine, "GENDER", 0);
    HouseLinePlain();
  }

  lemma FatherLineRest()
    ensures !MentionsAge(FatherLine) && GenderInLine(FatherLine) == None
    ensures AddressInLine(FatherLine) == None
  {
    LitAbsent(FatherLine, "AGE", 1);
    LitAbsent(FatherLine, "GENDER", 0);
    NoAddress(FatherLine, 2);
  }

  // ---------------------------------------------------------------------
  // A whole card

  const Card: seq<String> := ["101", "EPIC123", "AGE : 45", "GENDER FEMALE", HouseLine, FatherLine]

  lemma SixNoRaise(card: seq<String>)
    requires |card| == 6
    requires !AgeRaisesOn(card[0]) && !AgeRaisesOn(card[1]) && !AgeRaisesOn(card[2])
    requires !AgeRaisesOn(card[3]) && !AgeRaisesOn(card[4]) && !AgeRaisesOn(card[5])
    ensures !AgeRaises(card)
  {
  }

  lemma SixAge(card: seq<String>)
    requires |card| == 6 && AgeValue(card[2]).Some?
    requires AgeValue(card[3]).None? && AgeValue(card[4]).None? && AgeValue(card[5]).None?
    ensures LastMatch(card, AgeValue, None) == AgeValue(card[2])
  {
    forall j | 2 < j < 6 ensures AgeValue(card[j]).None? {
      if j == 3 { } else if j == 4 { } else { }
    }
    LastMatchTail(card, 2, AgeValue, None);
  }

  lemma SixGender(card: seq<String>)
    requires |card| == 6 && GenderInLine(card[3]).Some?
    requires GenderInLine(card[4]).None? && GenderInLine(card[5]).None?
    ensures LastMatch(card, GenderInLine, None) == GenderInLine(card[3])
  {
    forall j | 3 < j < 6 ensures GenderInLine(card[j]).None? {
      if j == 4 { } else { }
    }
    LastMatchTail(card, 3, GenderInLine, None);
  }

  lemma SixAddress(card: seq<String>)
    requires |card| == 6 && AddressInLine(card[4]).Some? && AddressInLine(card[5]).None?
    ensures LastMatch(card, AddressInLine, None) == AddressInLine(card[4])
  {
    forall j | 4 < j < 6 ensures AddressInLine(card[j]).None? {
      assert j == 5;
    }
    LastMatchTail(card, 4, AddressInLine, None);
  }

  lemma SixRelation(card: seq<String>, kin: Kinship)
    requires |card| == 6 && RoleOf(card[5]) == RelativeLine(kin)
    requires RoleOf(card[0]) == PlainLine && RoleOf(card[1]) == PlainLine && RoleOf(card[2]) == PlainLine
    requires RoleOf(card[3]) == PlainLine && RoleOf(card[4]) == PlainLine
    ensures ScanRelation(card, None) == RelationScan(None, Some(kin))
  {
    forall j | 0 <= j < 5 ensures RoleOf(card[j]) == PlainLine {
      if j == 0 { } else if j == 1 { } else if j == 2 { } else if j == 3 { } else { }
    }
    ScanRelationAfterPlain(card, 5, None);
  }

  /**
   * A six-line card whose third line is its only AGE line, whose fourth is
   * the last to give a gender, whose fifth is the last to give a house
   * number and whose sixth is the first to name a relative, after five
   * plain lines: every attribute but the voter's own name is set.
   */
  lemma SixLineCard(card: seq<String>, age: nat, gender: Gender, address: String, kin: Kinship)
    requires |card| == 6
    requires !MentionsAge(card[0]) && !MentionsAge(card[1]) && AgeValue(card[2]) == Some(age)
    requires !MentionsAge(card[3]) && !MentionsAge(card[4]) && !MentionsAge(card[5])
    requires GenderInLine(card[3]) == Some(gender) && GenderInLine(card[4]) == None && GenderInLine(card[5]) == None
    requires AddressInLine(card[4]) == Some(address) && AddressInLine(card[5]) == None
    requires RoleOf(card[0]) == PlainLine && RoleOf(card[1]) == PlainLine && RoleOf(card[2]) == PlainLine
    requires RoleOf(card[3]) == PlainLine && RoleOf(card[4]) == PlainLine
    requires RoleOf(card[5]) == RelativeLine(kin)
    ensures Parse(card) == Success(ParsedProfile(
              Some(age), Some(gender), Some(address), None, Some(kin.relative), Some(kin.relation), Some(card[0]), Some(card[1])))
  {
    SixNoRaise(card);
    SixAge(card);
    SixGender(card);
    SixAddress(card);
    SixRelation(card, kin);
  }

  /**
   * A card whose lines carry serial number, EPIC number, age, gender, house
   * number and father's name gives all eight attributes but the voter's own
   * name, which no plain NAME line supplies.
   */
  lemma WorkedCard()
    ensures Parse(Card) == Success(ParsedProfile(
              Some(45), Some(F), Some("12-A"), None, Some("JOHN DOE"), Some(FTHR), Some("101"), Some("EPIC123")))
  {
    assert Card[0] == "101" && Card[1] == "EPIC123" && Card[2] == "AGE : 45";
    assert Card[3] == "GENDER FEMALE" && Card[4] == HouseLine && Card[5] == FatherLine;
    SerialLine();
    EpicLine();
    AgeFortyFive();
    AgeLineRest();
    FemaleBeforeMale();
    GenderLineRest();
    HouseNumberTwelveA();
    HouseLineRest();
    FatherJohnDoe();
    FatherLineRest();
    SixLineCard(Card, 45, F, "12-A", Kinship(FTHR, "JOHN DOE"));
  }
}
