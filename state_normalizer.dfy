/** Normalisation of free-text US state input (`StateNormalizer` in
    server/promptUtils.js): an abbreviation or a full name, in any letter
    case and with surrounding whitespace, is mapped to its table entry;
    anything else is echoed back, trimmed, as not valid. */
module StateNormalizer {
  import opened Wrappers
  import opened JsStrings

  datatype StateInfo = StateInfo(abbreviation: string, fullName: string, isValid: bool)

  const TableSize: nat := 51

  /** The abbreviation table, entry by entry in declaration order (the
      order in which full names are searched). */
  function StateEntry(i: nat): (string, string)
    requires i < TableSize
  {
    match i
    case 0 => ("AL", "Alabama")
    case 1 => ("AK", "Alaska")
    case 2 => ("AZ", "Arizona")
    case 3 => ("AR", "Arkansas")
    case 4 => ("CA", "California")
    case 5 => ("CO", "Colorado")
    case 6 => ("CT", "Connecticut")
    case 7 => ("DE", "Delaware")
    case 8 => ("FL", "Florida")
    case 9 => ("GA", "Georgia")
    case 10 => ("HI", "Hawaii")
    case 11 => ("ID", "Idaho")
    case 12 => ("IL", "Illinois")
    case 13 => ("IN", "Indiana")
    case 14 => ("IA", "Iowa")
    case 15 => ("KS", "Kansas")
    case 16 => ("KY", "Kentucky")
    case 17 => ("LA", "Louisiana")
    case 18 => ("ME", "Maine")
    case 19 => ("MD", "Maryland")
    case 20 => ("MA", "Massachusetts")
    case 21 => ("MI", "Michigan")
    case 22 => ("MN", "Minnesota")
    case 23 => ("MS", "Mississippi")
    case 24 => ("MO", "Missouri")
    case 25 => ("MT", "Montana")
    case 26 => ("NE", "Nebraska")
    case 27 => ("NV", "Nevada")
    case 28 => ("NH", "New Hampshire")
    case 29 => ("NJ", "New Jersey")
    case 30 => ("NM", "New Mexico")
    case 31 => ("NY", "New York")
    case 32 => ("NC", "North Carolina")
    case 33 => ("ND", "North Dakota")
    case 34 => ("OH", "Ohio")
    case 35 => ("OK", "Oklahoma")
    case 36 => ("OR", "Oregon")
    case 37 => ("PA", "Pennsylvania")
    case 38 => ("RI", "Rhode Island")
    case 39 => ("SC", "South Carolina")
    case 40 => ("SD", "South Dakota")
    case 41 => ("TN", "Tennessee")
    case 42 => ("TX", "Texas")
    case 43 => ("UT", "Utah")
    case 44 => ("VT", "Vermont")
    case 45 => ("VA", "Virginia")
    case 46 => ("WA", "Washington")
    case 47 => ("WV", "West Virginia")
    case 48 => ("WI", "Wisconsin")
    case 49 => ("WY", "Wyoming")
    case 50 => ("DC", "District of Columbia")
  }

  /** The table as a sequence of `(abbreviation, fullName)` pairs. */
  function StateTable(): (t: seq<(string, string)>)
    ensures |t| == TableSize
    ensures forall i :: 0 <= i < TableSize ==> t[i] == StateEntry(i)
  {
    seq(TableSize, i requires 0 <= i < TableSize => StateEntry(i))
  }

  /** `key` is one of the abbreviations of `table`. */
  predicate IsAbbreviation(table: seq<(string, string)>, key: string)
  {
    exists i :: 0 <= i < |table| && table[i].0 == key
  }

  /** Some full name of `table` lower-cases to `lower`. */
  predicate IsLowerName(table: seq<(string, string)>, lower: string)
  {
    exists i :: 0 <= i < |table| && ToLower(table[i].1) == lower
  }

  /** `stateMap[key]`: the position of the entry of `table` whose
      abbreviation is `key`, searching from position `from`. */
  function FindAbbreviation(table: seq<(string, string)>, key: string, from: nat): (r: Option<nat>)
    requires from <= |table|
    ensures r.Some? ==> from <= r.value < |table| && table[r.value].0 == key
    ensures r.None? ==> forall j :: from <= j < |table| ==> table[j].0 != key
    decreases |table| - from
  {
    if from == |table| then None
    else if table[from].0 == key then Some(from)
    else FindAbbreviation(table, key, from + 1)
  }

  /** The search over `Object.entries(stateMap)`: the first entry of `table`,
      from position `from` on, whose lower-cased full name is `lower`. */
  function FindName(table: seq<(string, string)>, lower: string, from: nat): (r: Option<nat>)
    requires from <= |table|
    ensures r.Some? ==> from <= r.value < |table| && ToLower(table[r.value].1) == lower
    ensures r.Some? ==> forall j :: from <= j < r.value ==> ToLower(table[j].1) != lower
    ensures r.None? ==> forall j :: from <= j < |table| ==> ToLower(table[j].1) != lower
    decreases |table| - from
  {
    if from == |table| then None
    else if ToLower(table[from].1) == lower then Some(from)
    else FindName(table, lower, from + 1)
  }

  /** `StateNormalizer.normalize` over a table. The empty string stands for
      every falsy input (`undefined`, `null`, ""), which all give the same
      result. */
  function NormalizeWith(table: seq<(string, string)>, stateInput: string): (r: StateInfo)
    ensures stateInput == "" ==> r == StateInfo("", "", false)
    ensures r.isValid ==> (r.abbreviation, r.fullName) in table
    ensures !r.isValid ==> r.abbreviation == Trim(stateInput) && r.fullName == Trim(stateInput)
    ensures stateInput != "" ==>
              (r.isValid <==> IsAbbreviation(table, ToUpper(Trim(stateInput)))
                              || IsLowerName(table, ToLower(Trim(stateInput))))
    ensures stateInput != "" && IsAbbreviation(table, ToUpper(Trim(stateInput))) ==>
              r.isValid && r.abbreviation == ToUpper(Trim(stateInput))
    ensures r.isValid && !IsAbbreviation(table, ToUpper(Trim(stateInput))) ==>
              ToLower(r.fullName) == ToLower(Trim(stateInput))
  {
    if stateInput == "" then StateInfo("", "", false)
    else
      var input := ToUpper(Trim(stateInput));
      match FindAbbreviation(table, input, 0)
      case Some(i) =>
        assert table[i] == (input, table[i].1);
        StateInfo(input, table[i].1, true)
      case None =>
        match FindName(table, ToLower(Trim(stateInput)), 0)
        case Some(i) =>
          StateInfo(table[i].0, table[i].1, true)
        case None =>
          StateInfo(Trim(stateInput), Trim(stateInput), false)
  }

  /** `StateNormalizer.normalize` over the 51-entry table. */
  function Normalize(stateInput: string): StateInfo
  {
    NormalizeWith(StateTable(), stateInput)
  }

  // ---------------------------------------------------------------------
  // The table's keys are distinct
  // ---------------------------------------------------------------------

  /** A two-letter abbreviation as a number. */
  function AbbreviationCode(a: string): int
    requires |a| == 2
  {
    a[0] as int * 256 + a[1] as int
  }

  /** A full name as a number built from its length and its lower-cased
      first, last and second characters; it differs for all 51 names. */
  function NameCode(n: string): int
    requires |n| >= 2
  {
    ((|n| * 256 + LowerChar(n[0]) as int) * 256 + LowerChar(n[|n| - 1]) as int) * 256
      + LowerChar(n[1]) as int
  }

  /** The entry whose abbreviation has code `c`. */
  function AbbreviationIndex(c: int): int
  {
    if c < 19795 then
      if c < 18753 then
        if c < 17236 then
          if c < 16730 then
            if c < 16716 then
              if c == 16715 then 1 else -1
            else
              if c < 16722 then
                if c == 16716 then 0 else -1
              else
                if c == 16722 then 3 else -1
          else
            if c < 17217 then
              if c == 16730 then 2 else -1
            else
              if c < 17231 then
                if c == 17217 then 4 else -1
              else
                if c == 17231 then 5 else -1
        else
          if c < 17996 then
            if c < 17475 then
              if c == 17236 then 6 else -1
            else
              if c < 17477 then
                if c == 17475 then 50 else -1
              else
                if c == 17477 then 7 else -1
          else
            if c < 18241 then
              if c == 17996 then 8 else -1
            else
              if c < 18505 then
                if c == 18241 then 9 else -1
              else
                if c == 18505 then 10 else -1
      else
        if c < 19521 then
          if c < 18766 then
            if c < 18756 then
              if c == 18753 then 14 else -1
            else
              if c < 18764 then
                if c == 18756 then 11 else -1
              else
                if c == 18764 then 12 else -1
          else
            if c < 19283 then
              if c == 18766 then 13 else -1
            else
              if c < 19289 then
                if c == 19283 then 15 else -1
              else
                if c == 19289 then 16 else -1
        else
          if c < 19781 then
            if c < 19777 then
              if c == 19521 then 17 else -1
            else
              if c < 19780 then
                if c == 19777 then 20 else -1
              else
                if c == 19780 then 19 else -1
          else
            if c < 19790 then
              if c < 19785 then
                if c == 19781 then 18 else -1
              else
                if c == 19785 then 21 else -1
            else
              if c < 19791 then
                if c == 19790 then 22 else -1
              else
                if c == 19791 then 24 else -1
    else
      if c < 20545 then
        if c < 20042 then
          if c < 20036 then
            if c < 19796 then
              if c == 19795 then 23 else -1
            else
              if c < 20035 then
                if c == 19796 then 25 else -1
              else
                if c == 20035 then 32 else -1
          else
            if c < 20037 then
              if c == 20036 then 33 else -1
            else
              if c < 20040 then
                if c == 20037 then 26 else -1
              else
                if c == 20040 then 28 else -1
        else
          if c < 20057 then
            if c < 20045 then
              if c == 20042 then 29 else -1
            else
              if c < 20054 then
                if c == 20045 then 30 else -1
              else
                if c == 20054 then 27 else -1
          else
            if c < 20299 then
              if c < 20296 then
                if c == 20057 then 31 else -1
              else
                if c == 20296 then 34 else -1
            else
              if c < 20306 then
                if c == 20299 then 35 else -1
              else
                if c == 20306 then 36 else -1
      else
        if c < 21844 then
          if c < 21316 then
            if c < 21065 then
              if c == 20545 then 37 else -1
            else
              if c < 21315 then
                if c == 21065 then 38 else -1
              else
                if c == 21315 then 39 else -1
          else
            if c < 21582 then
              if c == 21316 then 40 else -1
            else
              if c < 21592 then
                if c == 21582 then 41 else -1
              else
                if c == 21592 then 42 else -1
        else
          if c < 22337 then
            if c < 22081 then
              if c == 21844 then 43 else -1
            else
              if c < 22100 then
                if c == 22081 then 45 else -1
              else
                if c == 22100 then 44 else -1
          else
            if c < 22358 then
              if c < 22345 then
                if c == 22337 then 46 else -1
              else
                if c == 22345 then 48 else -1
            else
              if c < 22361 then
                if c == 22358 then 47 else -1
              else
                if c == 22361 then 49 else -1
  }


  /** The entry whose lower-cased full name has code `c`. */
  function NameIndex(c: int): int
  {
    if c < 141388137 then
      if c < 123822450 then
        if c < 107045228 then
          if c < 90795876 then
            if c < 74411880 then
              if c == 74015087 then 14 else -1
            else
              if c < 74803316 then
                if c == 74411880 then 34 else -1
              else
                if c == 74803316 then 43 else -1
          else
            if c < 91055457 then
              if c == 90795876 then 11 else -1
            else
              if c < 91517797 then
                if c == 91055457 then 18 else -1
              else
                if c == 91517797 then 42 else -1
        else
          if c < 107897189 then
            if c < 107506017 then
              if c == 107045228 then 1 else -1
            else
              if c < 107705185 then
                if c == 107506017 then 10 else -1
              else
                if c == 107705185 then 15 else -1
          else
            if c < 107966066 then
              if c == 107897189 then 27 else -1
            else
              if c < 123822444 then
                if c == 107966066 then 36 else -1
              else
                if c == 123822444 then 0 else -1
      else
        if c < 125265785 then
          if c < 124346734 then
            if c < 124150124 then
              if c == 123822450 then 2 else -1
            else
              if c < 124215653 then
                if c == 124150124 then 8 else -1
              else
                if c == 124215653 then 9 else -1
          else
            if c < 124608879 then
              if c == 124346734 then 13 else -1
            else
              if c < 125203557 then
                if c == 124608879 then 25 else -1
              else
                if c == 125203557 then 44 else -1
        else
          if c < 140797285 then
            if c < 140604274 then
              if c == 125265785 then 49 else -1
            else
              if c < 140734319 then
                if c == 140604274 then 3 else -1
              else
                if c == 140734319 then 5 else -1
          else
            if c < 141261157 then
              if c < 141128556 then
                if c == 140797285 then 7 else -1
              else
                if c == 141128556 then 12 else -1
            else
              if c < 141386849 then
                if c == 141261157 then 16 else -1
              else
                if c == 141386849 then 19 else -1
    else
      if c < 175599201 then
        if c < 158097775 then
          if c < 141454181 then
            if c < 141389417 then
              if c == 141388137 then 24 else -1
            else
              if c < 141451621 then
                if c == 141389417 then 21 else -1
              else
                if c == 141451621 then 26 else -1
          else
            if c < 141517163 then
              if c == 141454181 then 31 else -1
            else
              if c < 141975913 then
                if c == 141517163 then 35 else -1
              else
                if c == 141975913 then 45 else -1
        else
          if c < 158821993 then
            if c < 158163305 then
              if c == 158097775 then 17 else -1
            else
              if c < 158623077 then
                if c == 158163305 then 22 else -1
              else
                if c == 158623077 then 41 else -1
          else
            if c < 175009637 then
              if c < 174285153 then
                if c == 158821993 then 48 else -1
              else
                if c == 174285153 then 4 else -1
            else
              if c < 175012197 then
                if c == 175009637 then 30 else -1
              else
                if c == 175012197 then 29 else -1
      else
        if c < 208888175 then
          if c < 208560495 then
            if c < 191067247 then
              if c == 175599201 then 46 else -1
            else
              if c < 191719785 then
                if c == 191067247 then 6 else -1
              else
                if c == 191719785 then 23 else -1
          else
            if c < 208691557 then
              if c == 208560495 then 33 else -1
            else
              if c < 208823400 then
                if c == 208691557 then 37 else -1
              else
                if c == 208823400 then 38 else -1
        else
          if c < 225927525 then
            if c < 225276769 then
              if c == 208888175 then 40 else -1
            else
              if c < 225338725 then
                if c == 225276769 then 20 else -1
              else
                if c == 225338725 then 28 else -1
          else
            if c < 242442607 then
              if c < 242114927 then
                if c == 225927525 then 47 else -1
              else
                if c == 242114927 then 32 else -1
            else
              if c < 342122857 then
                if c == 242442607 then 39 else -1
              else
                if c == 342122857 then 50 else -1
  }


  /** Entry `i` has a two-letter upper-case abbreviation and a full name of at
      least four characters that starts and ends with a letter, and both
      codes of entry `i` lead back to `i`. */
  predicate EntryWellFormed(i: nat)
    requires i < TableSize
  {
    var a := StateEntry(i).0;
    var n := StateEntry(i).1;
    && |a| == 2 && 'A' <= a[0] <= 'Z' && 'A' <= a[1] <= 'Z'
    && |n| >= 4 && 'A' <= n[0] <= 'Z' && 'a' <= n[|n| - 1] <= 'z'
    && AbbreviationIndex(AbbreviationCode(a)) == i
    && NameIndex(NameCode(n)) == i
  }

  /** The entries, checked a few at a time so that each proof stays small. */
  lemma EntriesCheck0(i: nat)
    requires 0 <= i < 4
    ensures EntryWellFormed(i)
  {
    if i == 0 {}
    else if i == 1 {}
    else if i == 2 {}
    else if i == 3 {}
  }

  lemma EntriesCheck1(i: nat)
    requires 4 <= i < 8
    ensures EntryWellFormed(i)
  {
    if i == 4 {}
    else if i == 5 {}
    else if i == 6 {}
    else if i == 7 {}
  }

  lemma EntriesCheck2(i: nat)
    requires 8 <= i < 12
    ensures EntryWellFormed(i)
  {
    if i == 8 {}
    else if i == 9 {}
    else if i == 10 {}
    else if i == 11 {}
  }

  lemma EntriesCheck3(i: nat)
    requires 12 <= i < 16
    ensures EntryWellFormed(i)
  {
    if i == 12 {}
    else if i == 13 {}
    else if i == 14 {}
    else if i == 15 {}
  }

  lemma EntriesCheck4(i: nat)
    requires 16 <= i < 20
    ensures EntryWellFormed(i)
  {
    if i == 16 {}
    else if i == 17 {}
    else if i == 18 {}
    else if i == 19 {}
  }

  lemma EntriesCheck5(i: nat)
    requires 20 <= i < 24
    ensures EntryWellFormed(i)
  {
    if i == 20 {}
    else if i == 21 {}
    else if i == 22 {}
    else if i == 23 {}
  }

  lemma EntriesCheck6(i: nat)
    requires 24 <= i < 28
    ensures EntryWellFormed(i)
  {
    if i == 24 {}
    else if i == 25 {}
    else if i == 26 {}
    else if i == 27 {}
  }

  lemma EntriesCheck7(i: nat)
    requires 28 <= i < 32
    ensures EntryWellFormed(i)
  {
    if i == 28 {}
    else if i == 29 {}
    else if i == 30 {}
    else if i == 31 {}
  }

  lemma EntriesCheck8(i: nat)
    requires 32 <= i < 36
    ensures EntryWellFormed(i)
  {
    if i == 32 {}
    else if i == 33 {}
    else if i == 34 {}
    else if i == 35 {}
  }

  lemma EntriesCheck9(i: nat)
    requires 36 <= i < 40
    ensures EntryWellFormed(i)
  {
    if i == 36 {}
    else if i == 37 {}
    else if i == 38 {}
    else if i == 39 {}
  }

  lemma EntriesCheck10(i: nat)
    requires 40 <= i < 44
    ensures EntryWellFormed(i)
  {
    if i == 40 {}
    else if i == 41 {}
    else if i == 42 {}
    else if i == 43 {}
  }

  lemma EntriesCheck11(i: nat)
    requires 44 <= i < 48
    ensures EntryWellFormed(i)
  {
    if i == 44 {}
    else if i == 45 {}
    else if i == 46 {}
    else if i == 47 {}
  }

  lemma EntriesCheck12(i: nat)
    requires 48 <= i < 51
    ensures EntryWellFormed(i)
  {
    if i == 48 {}
    else if i == 49 {}
    else if i == 50 {}
  }

  /** Every entry is well formed. */
  lemma EntriesWellFormed(i: nat)
    requires i < TableSize
    ensures EntryWellFormed(i)
  {
    if i < 4 { EntriesCheck0(i); }
    else if i < 8 { EntriesCheck1(i); }
    else if i < 12 { EntriesCheck2(i); }
    else if i < 16 { EntriesCheck3(i); }
    else if i < 20 { EntriesCheck4(i); }
    else if i < 24 { EntriesCheck5(i); }
    else if i < 28 { EntriesCheck6(i); }
    else if i < 32 { EntriesCheck7(i); }
    else if i < 36 { EntriesCheck8(i); }
    else if i < 40 { EntriesCheck9(i); }
    else if i < 44 { EntriesCheck10(i); }
    else if i < 48 { EntriesCheck11(i); }
    else { EntriesCheck12(i); }
  }

  /** No abbreviation appears twice. */
  lemma AbbreviationsDistinct(i: nat, j: nat)
    requires i < TableSize && j < TableSize
    requires StateEntry(i).0 == StateEntry(j).0
    ensures i == j
  {
    EntriesWellFormed(i);
    EntriesWellFormed(j);
  }

  /** No two full names differ only in letter case. */
  lemma NamesDistinct(i: nat, j: nat)
    requires i < TableSize && j < TableSize
    requires ToLower(StateEntry(i).1) == ToLower(StateEntry(j).1)
    ensures i == j
  {
    EntriesWellFormed(i);
    EntriesWellFormed(j);
    var ni, nj := StateEntry(i).1, StateEntry(j).1;
    assert |ni| == |ToLower(ni)| == |ToLower(nj)| == |nj|;
    assert ToLower(ni)[0] == ToLower(nj)[0];
    assert ToLower(ni)[1] == ToLower(nj)[1];
    assert ToLower(ni)[|ni| - 1] == ToLower(nj)[|nj| - 1];
  }

  // ---------------------------------------------------------------------
  // What normalisation does with the 51 entries
  // ---------------------------------------------------------------------

  /** Any input that trims and upper-cases to an abbreviation gives its
      entry. */
  lemma NormalizeAbbreviation(s: string, i: nat)
    requires i < TableSize
    requires ToUpper(Trim(s)) == StateEntry(i).0
    ensures Normalize(s) == StateInfo(StateEntry(i).0, StateEntry(i).1, true)
  {
    EntriesWellFormed(i);
    assert s != "";
    var t := StateTable();
    assert IsAbbreviation(t, ToUpper(Trim(s))) by { assert t[i].0 == StateEntry(i).0; }
    var r := Normalize(s);
    var j :| 0 <= j < |t| && t[j] == (r.abbreviation, r.fullName);
    AbbreviationsDistinct(i, j);
  }

  /** Any input that trims and lower-cases to a full name gives its entry:
      no abbreviation can capture it first, since abbreviations have two
      letters and full names at least four. */
  lemma NormalizeName(s: string, i: nat)
    requires i < TableSize
    requires ToLower(Trim(s)) == ToLower(StateEntry(i).1)
    ensures Normalize(s) == StateInfo(StateEntry(i).0, StateEntry(i).1, true)
  {
    EntriesWellFormed(i);
    assert |Trim(s)| == |ToLower(Trim(s))| >= 4;
    assert s != "";
    var t := StateTable();
    assert !IsAbbreviation(t, ToUpper(Trim(s))) by {
      forall j | 0 <= j < |t| ensures t[j].0 != ToUpper(Trim(s)) {
        EntriesWellFormed(j);
      }
    }
    assert IsLowerName(t, ToLower(Trim(s))) by { assert t[i].1 == StateEntry(i).1; }
    var r := Normalize(s);
    var j :| 0 <= j < |t| && t[j] == (r.abbreviation, r.fullName);
    NamesDistinct(i, j);
  }

  /** An abbreviation is its own trimmed, upper-cased form. */
  lemma AbbreviationIsCanonical(i: nat)
    requires i < TableSize
    ensures ToUpper(Trim(StateEntry(i).0)) == StateEntry(i).0
  {
    EntriesWellFormed(i);
    var a := StateEntry(i).0;
    TrimOfTrimmed(a);
    assert ToUpper(a)[0] == a[0] && ToUpper(a)[1] == a[1];
  }

  /** A full name is its own trim. */
  lemma NameIsTrimmed(i: nat)
    requires i < TableSize
    ensures Trim(StateEntry(i).1) == StateEntry(i).1
  {
    EntriesWellFormed(i);
    TrimOfTrimmed(StateEntry(i).1);
  }

  /** Both keys of every entry normalise to that entry. */
  lemma EveryStateNormalizes(i: nat)
    requires i < TableSize
    ensures Normalize(StateEntry(i).0) == StateInfo(StateEntry(i).0, StateEntry(i).1, true)
    ensures Normalize(StateEntry(i).1) == StateInfo(StateEntry(i).0, StateEntry(i).1, true)
  {
    AbbreviationIsCanonical(i);
    NormalizeAbbreviation(StateEntry(i).0, i);
    NameIsTrimmed(i);
    NormalizeName(StateEntry(i).1, i);
  }

  /** Normalising the abbreviation of a result gives the same result back. */
  lemma NormalizeIdempotent(s: string)
    ensures Normalize(Normalize(s).abbreviation) == Normalize(s)
  {
    var r := Normalize(s);
    var t := StateTable();
    if r.isValid {
      var j :| 0 <= j < |t| && t[j] == (r.abbreviation, r.fullName);
      assert r == StateInfo(StateEntry(j).0, StateEntry(j).1, true);
      EveryStateNormalizes(j);
    } else if Trim(s) != "" {
      TrimIdempotent(s);
      assert r.abbreviation == Trim(s);
      assert s != "";
      assert !IsAbbreviation(t, ToUpper(Trim(Trim(s))));
      assert !IsLowerName(t, ToLower(Trim(Trim(s))));
    }
  }

  lemma TrimExample(s: string)
    requires s == " tx "
    ensures Trim(s) == "tx"
  {
    assert SkipLeading(s, 0) == 1;
    assert SkipTrailing(s, 1, 4) == 3;
    assert s[1..3] == "tx";
  }

  lemma EntryExamples()
    ensures StateEntry(42) == ("TX", "Texas")
    ensures StateEntry(31) == ("NY", "New York")
  {
  }

  /** Letter case and surrounding whitespace do not matter. */
  lemma NormalizeExampleAbbreviation(s: string)
    requires s == " tx "
    ensures Normalize(s) == StateInfo("TX", "Texas", true)
  {
    TrimExample(s);
    EntryExamples();
    NormalizeAbbreviation(s, 42);
  }

  lemma LowerExample(s: string, n: string)
    requires s == "new YORK" && n == "New York"
    ensures ToLower(s) == ToLower(n)
  {
    assert forall k :: 0 <= k < |s| ==> LowerChar(s[k]) == LowerChar(n[k]);
  }

  lemma NormalizeExampleName(s: string)
    requires s == "new YORK"
    ensures Normalize(s) == StateInfo("NY", "New York", true)
  {
    TrimOfTrimmed(s);
    EntryExamples();
    LowerExample(s, StateEntry(31).1);
    NormalizeName(s, 31);
  }
}
