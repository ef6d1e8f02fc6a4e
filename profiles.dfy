/**
 * The `Profile` class of task.py: from the cleaned, upper-cased text lines of
 * one voter card it extracts age, gender, house number, name, relative's name,
 * relation type, serial number and EPIC number.
 *
 * The pure functions first (what each extractor computes from the line list),
 * then the class, whose methods loop over the lines and are proved to leave
 * the fields those functions describe.
 */
module Profiles {
  import opened Wrappers
  import opened Text
  import opened LinePatterns

  /** The `ValueError` that `int("")` raises on an AGE line without digits. */
  datatype ValueError = ValueError

  // ---------------------------------------------------------------------
  // What the extractors compute

  /** Some line mentions AGE but has no digit, so `extract_gender_and_age` raises. */
  predicate AgeRaises(lines: seq<String>) {
    exists i :: 0 <= i < |lines| && AgeRaisesOn(lines[i])
  }

  /** The scan of `extract_relation_info` so far: the name seen, and the relative found (if any). */
  datatype RelationScan = RelationScan(name: Option<String>, kin: Option<Kinship>)

  /**
   * `extract_relation_info` from a given name onwards: a plain NAME line
   * replaces the name, and the first father, husband or OTHERS line ends the
   * scan.
   */
  function ScanRelation(lines: seq<String>, name: Option<String>): RelationScan {
    if |lines| == 0 then RelationScan(name, None)
    else
      match RoleOf(lines[0])
      case RelativeLine(k) => RelationScan(name, Some(k))
      case NameLine(n) => ScanRelation(lines[1..], Some(n))
      case PlainLine => ScanRelation(lines[1..], name)
  }

  /** Whether a line matches the father, husband or OTHERS pattern. */
  predicate NamesRelative(s: String) {
    RoleOf(s).RelativeLine?
  }

  /** The index of the first line that names a relative, or `|lines|` if none does. */
  function FirstRelativeIndex(lines: seq<String>): (r: nat)
    ensures r <= |lines|
    ensures forall j :: 0 <= j < r ==> !NamesRelative(lines[j])
    ensures r < |lines| ==> NamesRelative(lines[r])
  {
    FirstWhere(lines, NamesRelative)
  }

  /** The name a single line offers, if it is a plain NAME line. */
  function NameOfLine(s: String): Option<String> {
    if RoleOf(s).NameLine? then Some(RoleOf(s).name) else None
  }

  /** Past a line that names no relative, the scan goes on with the name that line offers, if any. */
  lemma ScanRelationPast(lines: seq<String>, name: Option<String>)
    requires |lines| > 0 && !NamesRelative(lines[0])
    ensures var next := if NameOfLine(lines[0]).Some? then NameOfLine(lines[0]) else name;
              ScanRelation(lines, name) == ScanRelation(lines[1..], next)
              && FirstRelativeIndex(lines) == 1 + FirstRelativeIndex(lines[1..])
  {
    assert FirstWhere(lines, NamesRelative) == 1 + FirstWhere(lines[1..], NamesRelative);
  }

  /** The relative the scan reports comes from the first line that names one. */
  lemma {:induction false} ScanRelationKin(lines: seq<String>, name: Option<String>)
    ensures var k := FirstRelativeIndex(lines);
              ScanRelation(lines, name).kin == if k < |lines| then Some(RoleOf(lines[k]).kin) else None
  {
    if |lines| > 0 && !NamesRelative(lines[0]) {
      var k := FirstRelativeIndex(lines);
      var tail := lines[1..];
      var next := if NameOfLine(lines[0]).Some? then NameOfLine(lines[0]) else name;
      ScanRelationPast(lines, name);
      ScanRelationKin(tail, next);
      if k < |lines| {
        assert tail[k - 1] == lines[k];
      }
    }
  }

  /** The name the scan reports is the last plain NAME before the first relative line. */
  lemma {:induction false} ScanRelationName(lines: seq<String>, name: Option<String>)
    ensures ScanRelation(lines, name).name == LastMatch(lines[..FirstRelativeIndex(lines)], NameOfLine, name)
  {
    if |lines| > 0 && !NamesRelative(lines[0]) {
      var k := FirstRelativeIndex(lines);
      var tail := lines[1..];
      var next := if NameOfLine(lines[0]).Some? then NameOfLine(lines[0]) else name;
      ScanRelationPast(lines, name);
      ScanRelationName(tail, next);
      LastMatchPrefixCons(lines, k, NameOfLine, name);
    }
  }

  /**
   * The relation scan, stated without the loop: the relative comes from the
   * first line that names one, and the name is the last plain NAME before that
   * line (or the starting name if there is none).
   */
  lemma ScanRelationSpec(lines: seq<String>, name: Option<String>)
    ensures var k := FirstRelativeIndex(lines);
            var r := ScanRelation(lines, name);
              r.kin == (if k < |lines| then Some(RoleOf(lines[k]).kin) else None)
              && r.name == LastMatch(lines[..k], NameOfLine, name)
  {
    ScanRelationKin(lines, name);
    ScanRelationName(lines, name);
  }

  /** After lines that match none of the four patterns, the first relative line ends the scan. */
  lemma ScanRelationAfterPlain(lines: seq<String>, k: nat, name: Option<String>)
    requires k < |lines| && RoleOf(lines[k]).RelativeLine?
    requires forall j :: 0 <= j < k ==> RoleOf(lines[j]) == PlainLine
    ensures ScanRelation(lines, name) == RelationScan(name, Some(RoleOf(lines[k]).kin))
  {
    var front := lines[..k];
    forall j | 0 <= j < k ensures !NamesRelative(lines[j]) && NameOfLine(front[j]).None? {
      assert front[j] == lines[j];
    }
    FirstWhereIs(lines, NamesRelative, k);
    ScanRelationSpec(lines, name);
    LastMatchNone(front, NameOfLine, name);
  }

  /** One step of the relation scan, at position `i` of the list. */
  lemma ScanRelationStep(lines: seq<String>, i: nat, name: Option<String>)
    requires i < |lines|
    ensures var role := RoleOf(lines[i]);
              ScanRelation(lines[i..], name) ==
                if role.RelativeLine? then RelationScan(name, Some(role.kin))
                else if role.NameLine? then ScanRelation(lines[i + 1..], Some(role.name))
                else ScanRelation(lines[i + 1..], name)
  {
    assert lines[i..][1..] == lines[i + 1..];
  }

  /** The eight attributes of a `Profile` once its constructor has run. */
  datatype ParsedProfile = ParsedProfile(
    age: Option<nat>,
    gender: Option<Gender>,
    address: Option<String>,
    name: Option<String>,
    relativeName: Option<String>,
    relationType: Option<Relation>,
    slNo: Option<String>,
    epicNo: Option<String>)

  /** `Profile(profile_data)`: the attributes it ends with, or the error its constructor raises. */
  function Parse(lines: seq<String>): Result<ParsedProfile, ValueError> {
    if AgeRaises(lines) then Failure(ValueError)
    else
      var scan := ScanRelation(lines, None);
      Success(ParsedProfile(
        LastMatch(lines, AgeValue, None),
        LastMatch(lines, GenderInLine, None),
        LastMatch(lines, AddressInLine, None),
        scan.name,
        if scan.kin.Some? then Some(scan.kin.value.relative) else None,
        if scan.kin.Some? then Some(scan.kin.value.relation) else None,
        if |lines| >= 2 then Some(lines[0]) else None,
        if |lines| >= 2 then Some(lines[1]) else None))
  }

  /** Constructing a profile raises exactly when an AGE line carries no digit at all. */
  lemma ParseFailsIff(lines: seq<String>)
    ensures Parse(lines).Failure? <==>
              exists i :: 0 <= i < |lines| && MentionsAge(lines[i])
                          && forall k :: 0 <= k < |lines[i]| ==> !IsDigit(lines[i][k])
  {
    forall i | 0 <= i < |lines| {
      DigitsEmpty(lines[i]);
    }
  }

  /**
   * Age: unset if no line mentions AGE; otherwise the number formed by all
   * digits of the last line that does.
   */
  lemma ParseAge(lines: seq<String>)
    requires Parse(lines).Success?
    ensures var age := Parse(lines).value.age;
              (age.None? <==> forall i :: 0 <= i < |lines| ==> !MentionsAge(lines[i]))
              && (age.Some? ==>
                    exists i :: 0 <= i < |lines| && MentionsAge(lines[i])
                                && age.value == DecimalValue(Digits(lines[i]))
                                && forall j :: i < j < |lines| ==> !MentionsAge(lines[j]))
  {
    var age := Parse(lines).value.age;
    forall i | 0 <= i < |lines| ensures AgeValue(lines[i]).Some? <==> MentionsAge(lines[i]) {
      assert !AgeRaisesOn(lines[i]);
    }
    if exists i :: 0 <= i < |lines| && AgeValue(lines[i]).Some? {
      LastMatchSome(lines, AgeValue, None);
      var i :| 0 <= i < |lines| && AgeValue(lines[i]) == age && forall j :: i < j < |lines| ==> AgeValue(lines[j]).None?;
      assert MentionsAge(lines[i]);
    } else {
      LastMatchNone(lines, AgeValue, None);
    }
  }

  /**
   * Gender and house number: each is unset if no line matches its pattern,
   * and otherwise comes from the last line that does.
   */
  lemma ParseGenderAndAddress(lines: seq<String>)
    requires Parse(lines).Success?
    ensures var p := Parse(lines).value;
              (p.gender.None? <==> forall i :: 0 <= i < |lines| ==> GenderInLine(lines[i]).None?)
              && (p.gender.Some? ==>
                    exists i :: 0 <= i < |lines| && GenderInLine(lines[i]) == p.gender
                                && forall j :: i < j < |lines| ==> GenderInLine(lines[j]).None?)
              && (p.address.None? <==> forall i :: 0 <= i < |lines| ==> AddressInLine(lines[i]).None?)
              && (p.address.Some? ==>
                    exists i :: 0 <= i < |lines| && AddressInLine(lines[i]) == p.address
                                && forall j :: i < j < |lines| ==> AddressInLine(lines[j]).None?)
  {
    if exists i :: 0 <= i < |lines| && GenderInLine(lines[i]).Some? {
      LastMatchSome(lines, GenderInLine, None);
    } else {
      LastMatchNone(lines, GenderInLine, None);
    }
    if exists i :: 0 <= i < |lines| && AddressInLine(lines[i]).Some? {
      LastMatchSome(lines, AddressInLine, None);
    } else {
      LastMatchNone(lines, AddressInLine, None);
    }
  }

  /**
   * The relation type is set exactly when the relative's name is, and both
   * come from the first line that matches the father, husband or OTHERS
   * pattern; the name is the last plain NAME line before it.
   */
  lemma ParseRelation(lines: seq<String>)
    requires Parse(lines).Success?
    ensures var p := Parse(lines).value;
            var k := FirstRelativeIndex(lines);
              (p.relationType.Some? <==> p.relativeName.Some?)
              && (p.relationType.Some? <==> k < |lines|)
              && (k < |lines| ==> p.relationType == Some(RoleOf(lines[k]).kin.relation)
                                  && p.relativeName == Some(RoleOf(lines[k]).kin.relative))
              && p.name == LastMatch(lines[..k], NameOfLine, None)
  {
    ScanRelationSpec(lines, None);
  }

  // ---------------------------------------------------------------------
  // Values of the `get_profile_info` dictionary

  /** A Python value in the info dictionary: an int, a str, or None. */
  datatype Cell = Null | Int(n: int) | Str(s: String)

  function TextCell(v: Option<String>): Cell {
    if v.Some? then Str(v.value) else Null
  }

  function AgeCell(v: Option<nat>): Cell {
    if v.Some? then Int(v.value) else Null
  }

  function GenderCell(v: Option<Gender>): Cell {
    match v
    case None => Null
    case Some(M) => Str("M")
    case Some(F) => Str("F")
  }

  function RelationCell(v: Option<Relation>): Cell {
    match v
    case None => Null
    case Some(FTHR) => Str("FTHR")
    case Some(HSBN) => Str("HSBN")
    case Some(OTHR) => Str("OTHR")
  }

  const InfoKeys: set<String> :=
    {"Age", "Gender", "Address", "Name", "Relative Name", "Relation Type", "SL No", "EPIC No"}

  /** `get_profile_info()` of a profile with the given attributes. */
  function InfoOf(p: ParsedProfile): (info: map<String, Cell>)
    ensures info.Keys == InfoKeys
  {
    map[
      "Age" := AgeCell(p.age),
      "Gender" := GenderCell(p.gender),
      "Address" := TextCell(p.address),
      "Name" := TextCell(p.name),
      "Relative Name" := TextCell(p.relativeName),
      "Relation Type" := RelationCell(p.relationType),
      "SL No" := TextCell(p.slNo),
      "EPIC No" := TextCell(p.epicNo)]
  }

  /** Different profiles give different dictionaries: `get_profile_info` loses no attribute. */
  lemma InfoOfInjective(p: ParsedProfile, q: ParsedProfile)
    requires InfoOf(p) == InfoOf(q)
    ensures p == q
  {
    var a, b := InfoOf(p), InfoOf(q);
    assert a["Age"] == b["Age"] && a["Gender"] == b["Gender"] && a["Address"] == b["Address"];
    assert a["Name"] == b["Name"] && a["Relative Name"] == b["Relative Name"];
    assert a["Relation Type"] == b["Relation Type"] && a["SL No"] == b["SL No"] && a["EPIC No"] == b["EPIC No"];
  }

  // ---------------------------------------------------------------------
  // The class

  /** The digit-collecting loop of `extract_gender_and_age`: `age += i` for each digit `i`. */
  method CollectDigits(item: String) returns (age: String)
    ensures age == Digits(item)
  {
    age := "";
    var j := 0;
    while j < |item|
      invariant 0 <= j <= |item|
      invariant age == Digits(item[..j])
    {
      if IsDigit(item[j]) {
        age := age + [item[j]];
      }
      assert item[..j + 1][..j] == item[..j];
      j := j + 1;
    }
    assert item[..j] == item;
  }

  // ---------------------------------------------------------------------
  // The loops of the extractors, over the profile's lines

  /**
   * The body of the `extract_gender_and_age` loop for one line: an AGE line
   * without a digit raises; otherwise a matching line replaces the age or the
   * gender, and any other line leaves them.
   */
  method AgeAndGenderOfLine(item: String, age0: Option<nat>, gender0: Option<Gender>)
    returns (raised: bool, age: Option<nat>, gender: Option<Gender>)
    ensures raised <==> AgeRaisesOn(item)
    ensures !raised ==> age == if AgeValue(item).Some? then AgeValue(item) else age0
    ensures !raised ==> gender == if GenderInLine(item).Some? then GenderInLine(item) else gender0
  {
    raised, age, gender := false, age0, gender0;
    if MentionsAge(item) {
      var digits := CollectDigits(item);
      if digits == [] {
        return true, age, gender;
      }
      age := Some(DecimalValue(digits));
    }
    var g := GenderInLine(item);
    if g.Some? {
      gender := g;
    }
  }

  /**
   * The loop of `extract_gender_and_age`, from the attributes' current values:
   * it stops with `raised` at the first AGE line without a digit; otherwise
   * the last AGE line gives the age and the last GENDER match the gender.
   */
  method ScanAgeAndGender(data: seq<String>, age0: Option<nat>, gender0: Option<Gender>)
    returns (raised: bool, age: Option<nat>, gender: Option<Gender>)
    ensures raised <==> AgeRaises(data)
    ensures !raised ==> age == LastMatch(data, AgeValue, age0)
    ensures !raised ==> gender == LastMatch(data, GenderInLine, gender0)
  {
    raised, age, gender := false, age0, gender0;
    var i := 0;
    while i < |data|
      invariant 0 <= i <= |data|
      invariant forall j :: 0 <= j < i ==> !AgeRaisesOn(data[j])
      invariant age == LastMatch(data[..i], AgeValue, age0)
      invariant gender == LastMatch(data[..i], GenderInLine, gender0)
    {
      raised, age, gender := AgeAndGenderOfLine(data[i], age, gender);
      if raised {
        return;
      }
      LastMatchStep(data, i, AgeValue, age0);
      LastMatchStep(data, i, GenderInLine, gender0);
      i := i + 1;
    }
    assert data[..i] == data;
  }

  /** The loop of `extract_house_number`: each matching line overwrites the address. */
  method ScanHouseNumber(data: seq<String>, address0: Option<String>) returns (address: Option<String>)
    ensures address == LastMatch(data, AddressInLine, address0)
  {
    address := address0;
    var i := 0;
    while i < |data|
      invariant 0 <= i <= |data|
      invariant address == LastMatch(data[..i], AddressInLine, address0)
    {
      var found := AddressInLine(data[i]);
      if found.Some? {
        address := found;
      }
      LastMatchStep(data, i, AddressInLine, address0);
      i := i + 1;
    }
    assert data[..i] == data;
  }

  /** The loop of `extract_relation_info`, ending at the first line that names a relative. */
  method ScanRelationInfo(data: seq<String>, name0: Option<String>) returns (name: Option<String>, kin: Option<Kinship>)
    ensures RelationScan(name, kin) == ScanRelation(data, name0)
  {
    name, kin := name0, None;
    var i := 0;
    while i < |data|
      invariant 0 <= i <= |data|
      invariant ScanRelation(data[i..], name) == ScanRelation(data, name0)
      invariant kin.None?
    {
      ScanRelationStep(data, i, name);
      var role := RoleOf(data[i]);
      if role.RelativeLine? {
        kin := Some(role.kin);
        break;
      } else if role.NameLine? {
        name := Some(role.name);
      }
      i := i + 1;
    }
  }

  class Profile {
    var profileData: seq<String>
    var age: Option<nat>
    var gender: Option<Gender>
    var address: Option<String>
    var name: Option<String>
    var relativeName: Option<String>
    var relationType: Option<Relation>
    var slNo: Option<String>
    var epicNo: Option<String>

    /** The first half of `__init__`: store the lines and leave every attribute None. */
    constructor (profileData: seq<String>)
      ensures this.profileData == profileData
      ensures age.None? && gender.None? && address.None? && name.None?
      ensures relativeName.None? && relationType.None? && slNo.None? && epicNo.None?
    {
      this.profileData := profileData;
      age, gender, address, name := None, None, None, None;
      relativeName, relationType, slNo, epicNo := None, None, None, None;
    }

    /** The attributes as one value. */
    function Attributes(): ParsedProfile
      reads this
    {
      ParsedProfile(age, gender, address, name, relativeName, relationType, slNo, epicNo)
    }

    /** `get_profile_info()`: the attributes under their dictionary keys. */
    function GetProfileInfo(): (info: map<String, Cell>)
      reads this
      ensures info.Keys == InfoKeys
    {
      InfoOf(Attributes())
    }

    /**
     * `extract_gender_and_age`: for every line, an AGE line sets the age from
     * its digits (raising on a line without digits) and a GENDER line sets the
     * gender; later lines overwrite earlier ones.
     */
    method ExtractGenderAndAge() returns (raised: bool)
      modifies this
      ensures profileData == old(profileData)
      ensures address == old(address) && name == old(name) && relativeName == old(relativeName)
      ensures relationType == old(relationType) && slNo == old(slNo) && epicNo == old(epicNo)
      ensures raised <==> AgeRaises(profileData)
      ensures !raised ==> age == LastMatch(profileData, AgeValue, old(age))
      ensures !raised ==> gender == LastMatch(profileData, GenderInLine, old(gender))
    {
      raised, age, gender := ScanAgeAndGender(profileData, age, gender);
    }

    /** `extract_house_number`: the last line with a HOUSE … NUMBER match sets the address. */
    method ExtractHouseNumber()
      modifies this
      ensures profileData == old(profileData) && age == old(age) && gender == old(gender)
      ensures name == old(name) && relativeName == old(relativeName) && relationType == old(relationType)
      ensures slNo == old(slNo) && epicNo == old(epicNo)
      ensures address == LastMatch(profileData, AddressInLine, old(address))
    {
      address := ScanHouseNumber(profileData, address);
    }

    /**
     * `extract_relation_info`: a father, husband or OTHERS line sets the
     * relative's name and relation type and ends the scan; a plain NAME line
     * before it sets the name.
     */
    method ExtractRelationInfo()
      modifies this
      ensures profileData == old(profileData) && age == old(age) && gender == old(gender)
      ensures address == old(address) && slNo == old(slNo) && epicNo == old(epicNo)
      ensures var scan := ScanRelation(profileData, old(name));
                name == scan.name
                && (scan.kin.Some? ==> relativeName == Some(scan.kin.value.relative)
                                       && relationType == Some(scan.kin.value.relation))
                && (scan.kin.None? ==> relativeName == old(relativeName) && relationType == old(relationType))
    {
      var kin;
      name, kin := ScanRelationInfo(profileData, name);
      if kin.Some? {
        relativeName, relationType := Some(kin.value.relative), Some(kin.value.relation);
      }
    }

    /** `extract_sl_no_and_epic_no`: with two lines or more, the first two are the serial and EPIC numbers. */
    method ExtractSlNoAndEpicNo()
      modifies this
      ensures profileData == old(profileData) && age == old(age) && gender == old(gender)
      ensures address == old(address) && name == old(name)
      ensures relativeName == old(relativeName) && relationType == old(relationType)
      ensures |profileData| >= 2 ==> slNo == Some(profileData[0]) && epicNo == Some(profileData[1])
      ensures |profileData| < 2 ==> slNo == old(slNo) && epicNo == old(epicNo)
    {
      if |profileData| >= 2 {
        slNo := Some(profileData[0]);
        epicNo := Some(profileData[1]);
      }
    }
  }

  /**
   * `Profile(profile_data)`: the constructor followed by the four extractors,
   * in the order `__init__` calls them; a `ValueError` from the first one
   * propagates.
   */
  method NewProfile(profileData: seq<String>) returns (r: Result<Profile, ValueError>)
    ensures r.Failure? <==> AgeRaises(profileData)
    ensures r.Success? ==> fresh(r.value) && r.value.profileData == profileData
    ensures r.Success? ==> Parse(profileData) == Success(r.value.Attributes())
  {
    var p := new Profile(profileData);
    var raised := p.ExtractGenderAndAge();
    if raised {
      return Failure(ValueError);
    }
    p.ExtractHouseNumber();
    p.ExtractRelationInfo();
    p.ExtractSlNoAndEpicNo();
    r := Success(p);
  }
}
