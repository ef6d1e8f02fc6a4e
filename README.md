# Voter-card extraction rules, modelled in Dafny

`task.py` turns scanned electoral-roll pages into a spreadsheet of voter
records. It finds the card rectangles on each page, reads each card with OCR,
and then applies a set of plain rules to the text lines of each card. This
project models those rules and proves what they do:

- **Card selection** (`card_selection.dfy`, module `CardSelection`). The
  quadrilaterals found on a page are sorted by area, largest first. They are
  cropped from the front until one is smaller than a threshold. A candidate is
  abstracted to its area, the x-coordinate of its first polygon vertex and its
  bounding box.
- **Watermark filter and cleanup** (`card_filter.dfy`, module `CardFilter`).
  A card is dropped when one of its lines is exactly `E`, which is what a card
  stamped "Deleted" reads in its serial-number box. The survivors are
  upper-cased. Then the first `PHOTO` line and the first `AVAILABLE` line of
  each card are removed in place.
- **The `Profile` class** (`profiles.dfy`, module `Profiles`). It has the
  eight attributes, the four `extract_*` methods and `get_profile_info`. The
  methods are imperative: each loops over the card's lines and updates the
  object's fields. Each loop is proved against a specification function
  (`Parse`, `ScanRelation`, `LastMatch`). The properties the attributes are
  meant to have are then proved about that function.
- **The regular expressions** (`line_patterns.dfy`, module `LinePatterns`).
  These are `AGE.+`, `GENDER.*?(FEMALE|MALE)`, the HOUSE … NUMBER address
  pattern, and the father / husband / OTHERS / NAME patterns. Each is written
  out as the match `re.search(..., re.IGNORECASE)` finds: the leftmost start
  where the pattern succeeds. Greedy and lazy quantifiers are resolved in the
  order the regex engine tries them.
- **The export rows** (`export.dfy`, module `Export`). One `Profile` is built
  per cleaned card, and each profile's information dictionary is renamed to
  the spreadsheet's columns.
- **Text helpers** (`text.dfy`, module `Text`) hold the string operations the
  rules use:
  - ASCII character classes and case folding;
  - the leftmost-match search and greedy runs;
  - `strip`, the digits of a line, and `int` of a digit string;
  - "last match wins".
- **Option and Result** are in `wrappers.dfy`.
- **Worked examples** (`scenarios.dfy`, module `Scenarios`) cover concrete
  OCR lines and a whole six-line card.

Where a description of this pipeline differs from the code, the model follows
the code:

- The watermark test is an exact, case-sensitive comparison with `E`, made
  before upper-casing. No other glyph is compared.
- A page with exactly one candidate fails with an index error. A page with no
  candidate gives no crops.
- The selection threshold is the x-coordinate of the second candidate's first
  vertex, not its area (see Findings).

## Model

| member | source | states |
|---|---|---|
| CardSelection.SelectCards | task.py:38-46 | The loop returns the boxes of the longest prefix of the area-sorted candidates whose areas reach `rectangles[1]`'s first-vertex x, in order. It fails with an index error for exactly one candidate. |
| CardSelection.SortByAreaSorted | task.py:38 | Sorting gives a permutation of the candidates, ordered by decreasing area. |
| CardSelection.InsertSorted | task.py:38 | Inserting into an area-sorted list keeps it sorted. |
| CardSelection.InsertPermutes | task.py:38 | Inserting adds exactly that candidate, as a multiset. |
| CardSelection.KeptCount | task.py:40-42 | Every candidate before the count reaches the threshold, and the candidate at the count (if any) is below it. |
| CardSelection.KeptCountIs | task.py:40-42 | A prefix that reaches the threshold and is followed by a smaller candidate (or the end) is the kept one. |
| CardSelection.AtLeastMembers | task.py:40-42 | The reference filter keeps each candidate whose area reaches the threshold, with its multiplicity, and drops every other candidate. |
| CardSelection.KeptPrefixIsAtLeast | task.py:38-42 | On an area-sorted list, the prefix the loop keeps is exactly the candidates reaching the threshold. |
| CardSelection.SelectionFailsIff | task.py:38-41 | The selection fails exactly when one candidate was found. With none it gives no boxes. |
| CardSelection.SelectionKeepsAtLeast | task.py:38-46 | With two or more candidates, the selection is the boxes of all candidates whose area reaches the threshold, largest first. |
| CardSelection.IntendedKeepsSecondLargest | task.py:41 | With the threshold read as the second-largest area, at least two cards are kept: every candidate at least as large as the second, and nothing smaller. |
| CardSelection.ThresholdComparesAreaWithCoordinate | task.py:41 | Cards of areas 100 and 90, the second with its first vertex at x = 95: the code keeps one card, while the area threshold keeps both. |
| CardFilter.DropWatermarked | task.py:79-87 | The flag loop returns the upper-cased cards that have no line equal to `E`, in order. |
| CardFilter.SurvivorIndicesSpec | task.py:79-86 | A card survives exactly when none of its lines is `E`, and the surviving positions are increasing. |
| CardFilter.SurvivorsAt | task.py:86-87 | The k-th survivor is the card at the k-th surviving position, with each of its lines upper-cased and its length kept. |
| CardFilter.LowerCaseSurvives | task.py:83 | The test is made before upper-casing: a card with a line `e` survives and becomes `E`. |
| CardFilter.UpperLines | task.py:87 | Each line is upper-cased and the card keeps its length. |
| CardFilter.IndexOf | task.py:91-94 | Finds the first occurrence of a line, and reports none exactly when the line is absent. |
| CardFilter.RemoveCount | task.py:92 | `list.remove` takes away exactly one copy of the line. |
| CardFilter.RemoveKeepsOthers | task.py:92-94 | Removing a PHOTO or AVAILABLE line leaves every other line, in order. |
| CardFilter.CleanCardCount | task.py:90-94 | The cleanup removes one PHOTO and one AVAILABLE where present, and nothing else. |
| CardFilter.CleanCardKeepsOthers | task.py:90-94 | All lines other than PHOTO and AVAILABLE keep their relative order. |
| CardFilter.Cleanup | task.py:90-94 | Every card of the list is replaced in place by its cleaned version. |
| Text.UpperIdempotent | task.py:87 | Upper-casing twice is upper-casing once. |
| Text.DigitsEmpty | task.py:143-147 | No digit is collected exactly when the line holds no digit, which is when `int("")` raises. |
| Text.DigitsAppend | task.py:144-146 | The collected digits of two concatenated strings are the digits of each, in order. |
| Text.DecimalRoundTrip | task.py:147 | `int` of the decimal numeral of n is n. |
| Text.FirstFrom | task.py:142 | The search returns the leftmost position where the pattern matches, or none when it matches nowhere. |
| Text.TrimWhileIdempotent | task.py:169 | Trimming the result again changes nothing. |
| Text.LastMatchSome | task.py:140-154 | When some line matches, the result is the value of the last matching line. |
| Text.LastMatchNone | task.py:140-154 | When no line matches, the field keeps its previous value. |
| LinePatterns.MentionsAgeIff | task.py:141-142 | The AGE search succeeds exactly when `AGE` followed by a character other than a line feed occurs in the line. |
| LinePatterns.LazyGenderSpec | task.py:148 | The lazy match succeeds exactly when FEMALE or MALE follows on the same line. It picks the earliest such word, and FEMALE wins at the same position. |
| LinePatterns.GenderAtSpec | task.py:148-150 | GENDER matches at a position exactly when a gender word follows it on its line. |
| LinePatterns.GenderInLineFound | task.py:148-152 | A line sets the gender exactly when some GENDER is followed on its line by FEMALE or MALE. |
| LinePatterns.GenderInLineValue | task.py:152-154 | The gender is F exactly when the earliest gender word after the leftmost matching GENDER is FEMALE. |
| LinePatterns.AddressInLineSome | task.py:166-168 | A line sets an address exactly when HOUSE, non-alphanumeric filler and NUMBER occur in it. |
| LinePatterns.HouseNumberAtShift | task.py:166-167 | Stripping the line's leading non-word characters does not change where HOUSE … NUMBER matches. |
| LinePatterns.AddressInLineShape | task.py:167-169 | An address is empty, or starts and ends with a word character. It holds only word characters, whitespace and hyphens. |
| LinePatterns.CaptureRest | task.py:175-194 | A `(.*)` capture after `.strip()` has no whitespace at either end and no line feed. |
| LinePatterns.RoleOfSpec | task.py:180-194 | The branch a line takes follows the `if`/`elif` priority: father, then husband, then OTHERS, then a plain NAME. |
| LinePatterns.RoleOfCapture | task.py:182-194 | Every relative's name and voter's name captured is stripped and on one line. |
| Profiles.FirstRelativeIndex | task.py:180-192 | No line before the index names a relative, and the line at the index, if any, does. |
| Profiles.ScanRelationSpec | task.py:180-194 | The relative comes from the first line naming one. The name is the last plain NAME before that line. |
| Profiles.ScanRelationKin | task.py:180-192 | The relative the scan reports comes from the first line that names one, or is unset if none does. |
| Profiles.ScanRelationName | task.py:193-194 | The name the scan reports is the last plain NAME line before the first relative line. |
| Profiles.ScanRelationPast | task.py:180-194 | Past a line that names no relative, the scan continues with the name that line offers, if any. |
| Profiles.ScanRelationAfterPlain | task.py:180-192 | After lines matching no pattern, the first relative line ends the scan and the name stays as it was. |
| Profiles.ParseFailsIff | task.py:140-147 | Building a profile raises exactly when some line matches `AGE.+` but holds no digit. |
| Profiles.ParseAge | task.py:140-147 | The age is unset when no line mentions AGE. Otherwise it is the number spelled by all digits of the last line that does. |
| Profiles.ParseGenderAndAddress | task.py:148-169 | Gender and address are each unset when no line matches their pattern. Otherwise each comes from the last line that does. |
| Profiles.ParseRelation | task.py:171-194 | The relation type is set exactly when the relative's name is, and exactly when some line names a relative. Both come from the first such line. The name is the last plain NAME before it. |
| Profiles.InfoOf | task.py:201-211 | `get_profile_info` has exactly the eight keys. |
| Profiles.InfoOfInjective | task.py:201-211 | Two profiles with the same dictionary have the same attributes: no attribute is lost. |
| Profiles.CollectDigits | task.py:143-146 | The inner loop collects exactly the digits of the line, in order. |
| Profiles.AgeAndGenderOfLine | task.py:141-154 | For one line: it raises exactly on an AGE line without digits. Otherwise a matching line replaces the age or the gender, and any other line leaves them. |
| Profiles.ScanAgeAndGender | task.py:140-154 | The loop raises exactly when some line does. Otherwise the age and gender are the last-match values over the lines. |
| Profiles.ScanHouseNumber | task.py:165-169 | The loop leaves the address of the last matching line, or the previous value. |
| Profiles.ScanRelationInfo | task.py:180-194 | The loop with its `break` computes the relation scan. |
| Profiles.Profile.constructor | task.py:114-123 | The lines are stored and every attribute starts as None. |
| Profiles.Profile.GetProfileInfo | task.py:201-211 | The dictionary has the eight keys. |
| Profiles.Profile.ExtractGenderAndAge | task.py:131-154 | Raises exactly on an AGE line without digits. Otherwise sets age and gender by last match. Changes no other field. |
| Profiles.Profile.ExtractHouseNumber | task.py:156-169 | Sets the address from the last matching line. Changes no other field. |
| Profiles.Profile.ExtractRelationInfo | task.py:171-194 | Sets name, relative's name and relation type as the scan determines. Changes no other field. |
| Profiles.Profile.ExtractSlNoAndEpicNo | task.py:196-199 | With two lines or more, lines 0 and 1 become the serial and EPIC numbers. Otherwise both stay as they were. |
| Profiles.NewProfile | task.py:114-129 | Construction fails exactly when the age extractor raises. Otherwise the new object's attributes are `Parse` of its lines. |
| Export.ToRow | task.py:223-232 | The row has exactly the eight column names. |
| Export.FromRow | task.py:223-232 | Reading the columns back gives exactly the eight dictionary keys. |
| Export.RowRoundTrip | task.py:223-232 | The projection is a pure renaming: reading a row back gives the dictionary it was built from. |
| Export.RowOfInjective | task.py:221-232 | Different profiles give different rows. |
| Export.RowsBySerial | task.py:196-199 | The serial and EPIC columns of each row come from lines 0 and 1 of its card, or are empty for a card with fewer than two lines. |
| Export.MakeProfiles | task.py:216 | Building the profiles fails exactly when some card raises. Otherwise there is one profile per card, with attributes `Parse` of the card. |
| Export.RowsOfProfiles | task.py:219-232 | One row per profile, in order, each the renamed `get_profile_info`. |
| Export.ExportRows | task.py:216-232 | The rows are those of the cards' parsed attributes, or the error of the first card that raises. |
| Scenarios.WorkedCard | task.py:113-199 | The six-line card `101`, `EPIC123`, `AGE : 45`, `GENDER FEMALE`, `HOUSE NUMBER 12-A`, `FATHERS NAME JOHN DOE` gives serial 101, EPIC123, age 45, F, address 12-A, relative JOHN DOE of type FTHR, and no name. |
| Scenarios.SixLineCard | task.py:126-129 | A six-line card whose lines each feed one extractor gets all attributes except the voter's name. |
| Scenarios.AgeFortyFive | task.py:141-147 | `AGE : 45` gives age 45. |
| Scenarios.AgeDigitsAcrossGap | task.py:143-147 | `AGE : 3 5` gives 35: every digit of the line counts. |
| Scenarios.AgeWithoutDigitsRaises | task.py:147 | An AGE line without digits makes construction fail. |
| Scenarios.FemaleBeforeMale | task.py:148-154 | `GENDER FEMALE` gives F: the MALE inside FEMALE is not taken. |
| Scenarios.HouseNumberTwelveA | task.py:166-169 | `HOUSE NUMBER 12-A` gives the address `12-A`, hyphen included. |
| Scenarios.EmptyHouseNumber | task.py:167-169 | `HOUSE NUMBER :` still matches, with an empty address. |
| Scenarios.FatherJohnDoe | task.py:176-183 | `FATHERS NAME JOHN DOE` takes the optional S and names the relative JOHN DOE, of type FTHR. |

## Left out

- Page rendering and image files are not modelled: the PDF conversion, `cv2.imread`, the annotated OCR images and the `os.listdir` order. They are foreign libraries and file I/O.
- OpenCV geometry is not modelled: edge detection, contours, polygon approximation, `contourArea` and `boundingRect`. A candidate arrives as its area, its first-vertex x-coordinate and its bounding box.
- The crop `image[y:y+h, x:x+w]` is represented by its bounding box.
- OCR is not modelled. Each card arrives as its list of text lines.
- The pandas DataFrame is not modelled. Its numeric sort of the serial column and the Excel export are library behaviour. The model ends at the list of row dictionaries.
- `app.py` is not part of this model. It holds the web front end and file handling.
- Character classes are ASCII only. `\w`, `\s`, `str.isdigit`, `str.upper` and `re.IGNORECASE` are modelled on ASCII letters and digits. Non-ASCII digits, letters and case mappings are not modelled.
- CardSelection.SortByArea: the order among candidates of equal area is not stated, although Python's sort is stable.
- Profiles.Profile.ExtractGenderAndAge: when it raises, the age and gender it had already set from earlier lines are not stated. The exception leaves the constructor, and the object is never used.
- The extractor loops run on the line list and the fields are assigned after the loop. Nothing reads the fields while the loop runs, so only the raise above can observe the difference.
- Python lists are modelled as sequence values. Cleanup updates an array of cards in place. The cards share no storage with each other or with the OCR output, so aliasing is not modelled.

## Findings

| source | as written | input that shows it | evidently intended | confidence | as-written member | corrected member |
|---|---|---|---|---|---|---|
| task.py:41 | `cv2.contourArea(rect) < rectangles[1][0][0][0]` compares each area with the x-coordinate of the first vertex of the second-largest polygon | two cards of areas 100 and 90, the second with its first vertex at x = 95: only the larger card is cropped | compare with the area of the second-largest polygon, so that every card at least as large as the second is kept | high; not executed | CardSelection.ThresholdComparesAreaWithCoordinate | CardSelection.IntendedSelection |
