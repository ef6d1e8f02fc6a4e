/**
 * The end of the pipeline in task.py: one `Profile` per cleaned card, then
 * one export row per profile, renaming the keys of `get_profile_info` to the
 * spreadsheet's column names.
 */
module Export {
  import opened Wrappers
  import opened Text
  import opened Profiles

  type Row = map<String, Cell>

  const Columns: set<String> :=
    {"Part S.No", "Voter Full Name", "Relative's Name", "Relation Type", "Age", "Gender", "House No", "EPIC No"}

  /** The row dictionary built from a profile's information dictionary. */
  function ToRow(info: map<String, Cell>): (row: Row)
    requires InfoKeys <= info.Keys
    ensures row.Keys == Columns
  {
    map[
      "Part S.No" := info["SL No"],
      "Voter Full Name" := info["Name"],
      "Relative's Name" := info["Relative Name"],
      "Relation Type" := info["Relation Type"],
      "Age" := info["Age"],
      "Gender" := info["Gender"],
      "House No" := info["Address"],
      "EPIC No" := info["EPIC No"]]
  }

  /** The renaming read backwards: column names to the keys of `get_profile_info`. */
  function FromRow(row: Row): (info: map<String, Cell>)
    requires Columns <= row.Keys
    ensures info.Keys == InfoKeys
  {
    map[
      "SL No" := row["Part S.No"],
      "Name" := row["Voter Full Name"],
      "Relative Name" := row["Relative's Name"],
      "Relation Type" := row["Relation Type"],
      "Age" := row["Age"],
      "Gender" := row["Gender"],
      "Address" := row["House No"],
      "EPIC No" := row["EPIC No"]]
  }

  /** The projection is a pure renaming: every value of the dictionary reaches the row under its column. */
  lemma RowRoundTrip(info: map<String, Cell>)
    requires info.Keys == InfoKeys
    ensures FromRow(ToRow(info)) == info
  {
    var back := FromRow(ToRow(info));
    forall k | k in InfoKeys ensures back[k] == info[k] {
    }
  }

  /** The row of a profile's attributes, with `None` written as an empty cell. */
  function RowOf(p: ParsedProfile): Row {
    ToRow(InfoOf(p))
  }

  /** Two profiles with the same row have the same attributes. */
  lemma RowOfInjective(p: ParsedProfile, q: ParsedProfile)
    requires RowOf(p) == RowOf(q)
    ensures p == q
  {
    RowRoundTrip(InfoOf(p));
    RowRoundTrip(InfoOf(q));
    InfoOfInjective(p, q);
  }

  /**
   * The rows of the cleaned cards, in card order; building any `Profile`
   * raises when its card has an AGE line without a digit, and then no row is
   * produced.
   */
  function Rows(cards: seq<seq<String>>): Result<seq<Row>, ValueError> {
    if exists i :: 0 <= i < |cards| && AgeRaises(cards[i]) then Failure(ValueError)
    else Success(seq(|cards|, i requires 0 <= i < |cards| && !AgeRaises(cards[i]) => RowOf(Parse(cards[i]).value)))
  }

  /**
   * Serial and EPIC numbers land in their columns by position: lines 0 and 1
   * of each card with at least two lines, an empty cell otherwise.
   */
  lemma RowsBySerial(cards: seq<seq<String>>, i: nat)
    requires Rows(cards).Success? && i < |cards|
    ensures |Rows(cards).value| == |cards|
    ensures var row := Rows(cards).value[i];
            row["Part S.No"] == (if |cards[i]| >= 2 then Str(cards[i][0]) else Null)
            && row["EPIC No"] == (if |cards[i]| >= 2 then Str(cards[i][1]) else Null)
  {
  }

  lemma RowsOfParsed(cards: seq<seq<String>>, data: seq<Row>)
    requires forall i :: 0 <= i < |cards| ==> !AgeRaises(cards[i])
    requires |data| == |cards| && forall k :: 0 <= k < |cards| ==> data[k] == RowOf(Parse(cards[k]).value)
    ensures Rows(cards) == Success(data)
  {
    assert !exists i :: 0 <= i < |cards| && AgeRaises(cards[i]);
    assert Rows(cards).value == data;
  }

  /** `profile_objects = [Profile(data) for data in profiles]`: the first card that raises aborts the list. */
  method MakeProfiles(cards: seq<seq<String>>) returns (r: Result<seq<Profile>, ValueError>)
    ensures r.Failure? <==> exists i :: 0 <= i < |cards| && AgeRaises(cards[i])
    ensures r.Success? ==> |r.value| == |cards|
    ensures r.Success? ==> forall k :: 0 <= k < |cards| ==> Parse(cards[k]) == Success(r.value[k].Attributes())
  {
    var objects: seq<Profile> := [];
    ghost var parsed: seq<ParsedProfile> := [];
    for n := 0 to |cards|
      invariant |objects| == n && |parsed| == n
      invariant forall k :: 0 <= k < n ==> Parse(cards[k]) == Success(parsed[k])
      invariant forall k :: 0 <= k < n ==> objects[k].Attributes() == parsed[k]
    {
      var made := NewProfile(cards[n]);
      if made.Failure? {
        return Failure(ValueError);
      }
      objects := objects + [made.value];
      parsed := parsed + [made.value.Attributes()];
    }
    forall i | 0 <= i < |cards| ensures !AgeRaises(cards[i]) {
      assert Parse(cards[i]).Success?;
    }
    return Success(objects);
  }

  /** The loop over `profile_objects`: one row per profile, in order. */
  method RowsOfProfiles(objects: seq<Profile>) returns (data: seq<Row>)
    ensures |data| == |objects|
    ensures forall k :: 0 <= k < |objects| ==> data[k] == RowOf(objects[k].Attributes())
  {
    data := [];
    for n := 0 to |objects|
      invariant |data| == n
      invariant forall k :: 0 <= k < n ==> data[k] == RowOf(objects[k].Attributes())
    {
      var info := objects[n].GetProfileInfo();
      data := data + [ToRow(info)];
    }
  }

  /** The profiles built, then their rows. */
  method ExportRows(cards: seq<seq<String>>) returns (r: Result<seq<Row>, ValueError>)
    ensures r == Rows(cards)
  {
    var made := MakeProfiles(cards);
    if made.Failure? {
      return Failure(ValueError);
    }
    var data := RowsOfProfiles(made.value);
    RowsOfParsed(cards, data);
    return Success(data);
  }
}
