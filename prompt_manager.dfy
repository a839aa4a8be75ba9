/** The prompt loader (`PromptManager` in server/promptUtils.js): it reads
    the "Main Prompt Template" section of a markdown file, reloads it when
    the file's modification time advances, falls back to a built-in
    template when the file cannot be used, and turns a search form into a
    prompt. The file system is an input: each load sees one `FileState`. */
module PromptManagement {
  import opened Wrappers
  import opened JsStrings
  import opened JsValues
  import opened StateNormalizer
  import opened Templates

  // ---------------------------------------------------------------------
  // parseMarkdownTemplate
  // ---------------------------------------------------------------------

  const Marker: string := "## Main Prompt Template"
  const MissingSectionMessage: string := "Main Prompt Template section not found in markdown file"

  /** Each line with its surrounding whitespace removed. */
  function TrimmedLines(lines: seq<string>): (t: seq<string>)
    ensures |t| == |lines|
    ensures forall i :: 0 <= i < |lines| ==> t[i] == Trim(lines[i])
  {
    seq(|lines|, i requires 0 <= i < |lines| => Trim(lines[i]))
  }

  /** Trimming the lines again changes nothing: the scan sees each line
      once trimmed, whatever whitespace surrounded it. */
  lemma TrimmedLinesIdempotent(lines: seq<string>)
    ensures TrimmedLines(TrimmedLines(lines)) == TrimmedLines(lines)
  {
    forall i | 0 <= i < |lines|
      ensures Trim(TrimmedLines(lines)[i]) == TrimmedLines(lines)[i]
    {
      TrimIdempotent(lines[i]);
    }
  }

  /** A trimmed line that closes the template section: any other `## `
      heading. */
  predicate IsHeader(line: string)
  {
    StartsWith(line, "## ") && line != Marker
  }

  predicate IsBlank(line: string)
  {
    Trim(line) == ""
  }

  /** The first marker line at or after `from`, among trimmed lines. */
  function FirstMarker(t: seq<string>, from: nat): (r: Option<nat>)
    requires from <= |t|
    ensures r.Some? ==> from <= r.value < |t| && t[r.value] == Marker
    ensures r.Some? ==> forall j :: from <= j < r.value ==> t[j] != Marker
    ensures r.None? ==> forall j :: from <= j < |t| ==> t[j] != Marker
    decreases |t| - from
  {
    if from == |t| then None
    else if t[from] == Marker then Some(from)
    else FirstMarker(t, from + 1)
  }

  /** The first heading at or after `from`, or the end, among trimmed lines. */
  function SectionEnd(t: seq<string>, from: nat): (e: nat)
    requires from <= |t|
    ensures from <= e <= |t|
    ensures e < |t| ==> IsHeader(t[e])
    ensures forall j :: from <= j < e ==> !IsHeader(t[j])
    decreases |t| - from
  {
    if from == |t| then from
    else if IsHeader(t[from]) then from
    else SectionEnd(t, from + 1)
  }

  /** The last marker line before position `e`, among trimmed lines. */
  function LastMarkerBefore(t: seq<string>, e: nat): (r: Option<nat>)
    requires e <= |t|
    ensures r.Some? ==> r.value < e && t[r.value] == Marker
    ensures r.Some? ==> forall j :: r.value < j < e ==> t[j] != Marker
    ensures r.None? ==> forall j :: 0 <= j < e ==> t[j] != Marker
    decreases e
  {
    if e == 0 then None
    else if t[e - 1] == Marker then Some(e - 1)
    else LastMarkerBefore(t, e - 1)
  }

  /** Where the section's lines start and end: the section is closed by the
      first heading after the first marker line, and it starts after the
      last marker line before that heading. */
  function SectionBounds(t: seq<string>): (r: Option<(nat, nat)>)
    ensures r.None? <==> Marker !in t
    ensures r.Some? ==> 1 <= r.value.0 <= r.value.1 <= |t|
    ensures r.Some? ==> t[r.value.0 - 1] == Marker
  {
    match FirstMarker(t, 0)
    case None => None
    case Some(f) =>
      var e := SectionEnd(t, f + 1);
      match LastMarkerBefore(t, e)
      case Some(m) => Some((m + 1, e))
      case None => None
  }

  /** `lines` without its leading blank lines. */
  function DropLeadingBlank(lines: seq<string>): (r: seq<string>)
    ensures |r| <= |lines| && r == lines[|lines| - |r|..]
    ensures forall j :: 0 <= j < |lines| - |r| ==> IsBlank(lines[j])
    ensures r == [] || !IsBlank(r[0])
  {
    if lines != [] && IsBlank(lines[0]) then DropLeadingBlank(lines[1..]) else lines
  }

  /** The template a markdown text holds, or the error for a text without
      the section. */
  function TemplateSection(content: string): (r: Result<string, string>)
    ensures r.Err? <==> Marker !in TrimmedLines(Split(content, '\n'))
    ensures r.Err? ==> r.error == MissingSectionMessage
    ensures r.Ok? ==> IsTrimmed(r.value)
  {
    var lines := Split(content, '\n');
    match SectionBounds(TrimmedLines(lines))
    case None => Err(MissingSectionMessage)
    case Some((s, e)) => Ok(Trim(Join(DropLeadingBlank(lines[s..e]), "\n")))
  }

  /** `parseMarkdownTemplate(content)`: find the section's lines, then shift
      off its leading blank lines. */
  method ParseMarkdownTemplate(content: string) returns (r: Result<string, string>)
    ensures r == TemplateSection(content)
  {
    var lines := Split(content, '\n');
    var templateStart, templateEnd := ScanLines(lines);
    ScanFindsSection(TrimmedLines(lines), 0, -1);
    if templateStart == -1 {
      return Err(MissingSectionMessage);
    }
    var templateLines := lines[templateStart..templateEnd];
    while |templateLines| > 0 && Trim(templateLines[0]) == ""
      invariant DropLeadingBlank(templateLines) == DropLeadingBlank(lines[templateStart..templateEnd])
      decreases |templateLines|
    {
      DropLeadingBlankStep(templateLines);
      templateLines := templateLines[1..];
    }
    SectionOfContent(content, templateStart, templateEnd, templateLines);
    return Ok(Trim(Join(templateLines, "\n")));
  }

  /** What the loop of `parseMarkdownTemplate` computes from line `i` on with
      the section so far starting at `start` (-1 before any marker): the
      start is moved past every marker line, and the first other heading
      after a marker ends the section. The end is -1 when no marker was
      seen. */
  function Scan(t: seq<string>, i: nat, start: int): (r: (int, int))
    requires i <= |t|
    decreases |t| - i
  {
    if i == |t| then (start, if start == -1 then -1 else |t|)
    else if t[i] == Marker then Scan(t, i + 1, i + 1)
    else if start > -1 && StartsWith(t[i], "## ") && t[i] != Marker then (start, i)
    else Scan(t, i + 1, start)
  }

  /** The loop of `parseMarkdownTemplate`, over the lines of the text. */
  method ScanLines(lines: seq<string>) returns (templateStart: int, templateEnd: int)
    ensures (templateStart, templateEnd) == Scan(TrimmedLines(lines), 0, -1)
  {
    ghost var t := TrimmedLines(lines);
    templateStart := -1;
    templateEnd := -1;
    var i := 0;
    while i < |lines|
      invariant 0 <= i <= |lines|
      invariant templateEnd == -1
      invariant Scan(t, i, templateStart) == Scan(t, 0, -1)
    {
      var line := Trim(lines[i]);
      if line == Marker {
        templateStart := i + 1;
      } else if templateStart > -1 && StartsWith(line, "## ") && line != Marker {
        templateEnd := i;
        break;
      }
      i := i + 1;
    }
    if templateStart == -1 {
      return;
    }
    if templateEnd == -1 {
      templateEnd := |lines|;
    }
  }

  /** The scan finds the section's bounds, and -1 exactly when there is no
      marker line. */
  lemma {:induction false} ScanFindsSection(t: seq<string>, i: nat, start: int)
    requires i <= |t|
    requires start == -1 ==> NoMarkerBefore(t, i)
    requires start != -1 ==> ScanState(t, i, start)
    ensures Scan(t, i, start).0 == -1 <==> SectionBounds(t).None?
    ensures Scan(t, i, start).0 != -1 ==> SectionBounds(t) == Some((Scan(t, i, start).0, Scan(t, i, start).1))
    decreases |t| - i
  {
    if i == |t| {
      if start != -1 {
        SectionFound(t, start, i);
      }
    } else if t[i] == Marker {
      ScanMarker(t, i, start);
      ScanFindsSection(t, i + 1, i + 1);
    } else if start > -1 && StartsWith(t[i], "## ") {
      SectionFound(t, start, i);
    } else {
      ScanOther(t, i, start);
      ScanFindsSection(t, i + 1, start);
    }
  }

  /** Shifting off one blank line. */
  lemma DropLeadingBlankStep(lines: seq<string>)
    requires lines != [] && Trim(lines[0]) == ""
    ensures DropLeadingBlank(lines) == DropLeadingBlank(lines[1..])
  {
    assert IsBlank(lines[0]);
  }

  /** The section of a text whose bounds are known. */
  lemma SectionOfContent(content: string, s: nat, e: nat, rest: seq<string>)
    requires SectionBounds(TrimmedLines(Split(content, '\n'))) == Some((s, e))
    requires rest == [] || Trim(rest[0]) != ""
    requires DropLeadingBlank(rest) == DropLeadingBlank(Split(content, '\n')[s..e])
    ensures TemplateSection(content) == Ok(Trim(Join(rest, "\n")))
  {
  }

  /** What the scan knows after `i` lines once a marker was seen:
      `start - 1` is the last marker so far, and no heading follows the
      first marker. */
  ghost predicate ScanState(t: seq<string>, i: nat, start: int)
  {
    && i <= |t|
    && 1 <= start <= i
    && t[start - 1] == Marker
    && (forall j :: start <= j < i ==> t[j] != Marker)
    && FirstMarker(t, 0).Some? && FirstMarker(t, 0).value < i
    && (forall j :: FirstMarker(t, 0).value < j < i ==> !IsHeader(t[j]))
  }

  /** No marker among the first `i` trimmed lines. */
  ghost predicate NoMarkerBefore(t: seq<string>, i: nat)
  {
    forall j :: 0 <= j < i && j < |t| ==> t[j] != Marker
  }

  /** The scan at a marker line. */
  lemma ScanMarker(t: seq<string>, i: nat, start: int)
    requires i < |t| && t[i] == Marker
    requires start == -1 ==> NoMarkerBefore(t, i)
    requires start != -1 ==> ScanState(t, i, start)
    ensures ScanState(t, i + 1, i + 1)
  {
    if start == -1 {
      FirstMarkerIs(t, 0, i);
    }
  }

  /** The scan at a line that is neither a marker nor, after a marker, a
      heading. */
  lemma ScanOther(t: seq<string>, i: nat, start: int)
    requires i < |t| && t[i] != Marker
    requires start == -1 ==> NoMarkerBefore(t, i)
    requires start != -1 ==> ScanState(t, i, start) && !IsHeader(t[i])
    ensures start == -1 ==> NoMarkerBefore(t, i + 1)
    ensures start != -1 ==> ScanState(t, i + 1, start)
  {
  }

  /** When the scan stops at a heading or at the end, it has found the
      section's bounds. */
  lemma SectionFound(t: seq<string>, start: int, e: nat)
    requires ScanState(t, e, start)
    requires e < |t| ==> IsHeader(t[e])
    ensures SectionBounds(t) == Some((start, e))
  {
    var f := FirstMarker(t, 0).value;
    SectionEndIsFirstHeader(t, f + 1, e);
    LastMarkerBeforeIsLast(t, e, start - 1);
  }

  /** A position with no heading between `from` and it, and a heading (or
      the end) at it, is the section end. */
  lemma {:induction false} SectionEndIsFirstHeader(t: seq<string>, from: nat, e: nat)
    requires from <= e <= |t|
    requires e < |t| ==> IsHeader(t[e])
    requires forall j :: from <= j < e ==> !IsHeader(t[j])
    ensures SectionEnd(t, from) == e
    decreases e - from
  {
    if from < e {
      SectionEndIsFirstHeader(t, from + 1, e);
    }
  }

  /** A marker with no marker between it and `e` is the last one before `e`. */
  lemma {:induction false} LastMarkerBeforeIsLast(t: seq<string>, e: nat, m: nat)
    requires m < e <= |t| && t[m] == Marker
    requires forall j :: m < j < e ==> t[j] != Marker
    ensures LastMarkerBefore(t, e) == Some(m)
    decreases e - m
  {
    if m < e - 1 {
      LastMarkerBeforeIsLast(t, e - 1, m);
    }
  }

  /** A marker with no marker between `from` and it is the first one. */
  lemma {:induction false} FirstMarkerIs(t: seq<string>, from: nat, m: nat)
    requires from <= m < |t| && t[m] == Marker
    requires forall j :: from <= j < m ==> t[j] != Marker
    ensures FirstMarker(t, from) == Some(m)
    decreases m - from
  {
    if from < m {
      FirstMarkerIs(t, from + 1, m);
    }
  }

  /** Lines without newlines whose first marker line is at `m`, followed by
      lines that are neither markers nor headings up to a heading or the end
      at `e`: joined into one text, they hold the lines between `m` and `e`
      without the leading blank ones, joined and trimmed. */
  lemma SectionOfDocument(lines: seq<string>, m: nat, e: nat)
    requires forall j :: 0 <= j < |lines| ==> '\n' !in lines[j]
    requires m < e <= |lines| && Trim(lines[m]) == Marker
    requires forall j :: 0 <= j < m ==> Trim(lines[j]) != Marker
    requires forall j :: m < j < e ==> Trim(lines[j]) != Marker && !IsHeader(Trim(lines[j]))
    requires e < |lines| ==> IsHeader(Trim(lines[e]))
    ensures TemplateSection(Join(lines, "\n")) == Ok(Trim(Join(DropLeadingBlank(lines[m + 1..e]), "\n")))
  {
    var content := Join(lines, "\n");
    SplitJoin(lines, '\n');
    assert Split(content, '\n') == lines;
    SectionBoundsAt(TrimmedLines(lines), m, e);
    SectionAt(content, m + 1, e);
  }

  /** The template of a text is the lines within its section's bounds,
      without the leading blank ones, joined and trimmed. */
  lemma SectionAt(content: string, s: nat, e: nat)
    requires SectionBounds(TrimmedLines(Split(content, '\n'))) == Some((s, e))
    ensures TemplateSection(content) == Ok(Trim(Join(DropLeadingBlank(Split(content, '\n')[s..e]), "\n")))
  {
  }

  /** The bounds of a section whose only marker line is at `m` and which
      runs to a heading or the end at `e`. */
  lemma SectionBoundsAt(t: seq<string>, m: nat, e: nat)
    requires m < e <= |t| && t[m] == Marker
    requires forall j :: 0 <= j < m ==> t[j] != Marker
    requires forall j :: m < j < e ==> t[j] != Marker && !IsHeader(t[j])
    requires e < |t| ==> IsHeader(t[e])
    ensures SectionBounds(t) == Some((m + 1, e))
  {
    FirstMarkerIs(t, 0, m);
    SectionEndIsFirstHeader(t, m + 1, e);
    LastMarkerBeforeIsLast(t, e, m);
  }

  // ---------------------------------------------------------------------
  // getBasicTemplate
  // ---------------------------------------------------------------------

  /** The built-in template, line by line. */
  const BasicTemplateLineCount: nat := 28

  function BasicTemplateLine(i: nat): string
    requires i < BasicTemplateLineCount
  {
    match i
    case 0 => "Find 5 family-friendly activities in {{city}}, {{state}} for children aged {{ages}}."
    case 1 => "Available: {{availability}}."
    case 2 => "Maximum distance: {{distance}} miles from city center.{{preferences}}"
    case 3 => ""
    case 4 => "Please search the web for current, accurate information about activities, events, venues, and their details. Include real locations with current operating hours, contact information, and recent reviews when possible."
    case 5 => ""
    case 6 => "Return EXACTLY 5 activities in this JSON format:"
    case 7 => "{"
    case 8 => "  \"activities\": ["
    case 9 => "    {"
    case 10 => "      \"title\": \"Activity Name\","
    case 11 => "      \"emoji\": \"\U{F8FF}\U{FC}\U{E9}\U{D8}\","
    case 12 => "      \"description\": \"Detailed description of the activity, what makes it special, and why it's good for the specified age group.\","
    case 13 => "      \"location\": \"Specific address or venue name\","
    case 14 => "      \"distance\": \"X.X miles\","
    case 15 => "      \"ageAppropriate\": true,"
    case 16 => "      \"currentInfo\": \"Any current information like hours, prices, or special events\""
    case 17 => "    }"
    case 18 => "  ]"
    case 19 => "}"
    case 20 => ""
    case 21 => "Requirements:"
    case 22 => "- All activities must be age-appropriate for {{ages}}"
    case 23 => "- Include diverse activity types (indoor/outdoor, educational/recreational)"
    case 24 => "- Provide accurate, current information from web search"
    case 25 => "- Include specific locations with addresses when possible"
    case 26 => "- Distance should be calculated from {{city}}, {{state}} city center"
    case _ => "- Descriptions should be engaging and informative"
  }

  /** `getBasicTemplate()`: the built-in template, used when the file cannot
      be loaded. */
  function BasicTemplate(): string
  {
    Join(seq(BasicTemplateLineCount, i requires 0 <= i < BasicTemplateLineCount => BasicTemplateLine(i)), "\n")
  }

  // ---------------------------------------------------------------------
  // loadTemplate
  // ---------------------------------------------------------------------

  /** What one look at the prompt file finds: it cannot be examined, it can
      be examined but not read, or it is read. Times are in milliseconds. */
  datatype FileState =
    | StatFails
    | ReadFails(mtime: int)
    | Readable(mtime: int, content: string)

  /** The template and modification time after one `loadTemplate()`: a file
      not newer than the last load is skipped; a file that cannot be used or
      has no section gives the built-in template and keeps the time. */
  function LoadStep(template: string, lastModified: Option<int>, file: FileState): (r: (string, Option<int>))
    ensures !file.StatFails? && lastModified.Some? && file.mtime <= lastModified.value ==>
              r == (template, lastModified)
    ensures file.StatFails? ==> r == (BasicTemplate(), lastModified)
    ensures !file.StatFails? && (lastModified.None? || lastModified.value < file.mtime) ==>
              && (file.ReadFails? ==> r == (BasicTemplate(), lastModified))
              && (file.Readable? && TemplateSection(file.content).Err? ==> r == (BasicTemplate(), lastModified))
              && (file.Readable? && TemplateSection(file.content).Ok? ==>
                    r == (TemplateSection(file.content).value, Some(file.mtime)))
    ensures r.1 == lastModified || (file.Readable? && r.1 == Some(file.mtime))
  {
    match file
    case StatFails => (BasicTemplate(), lastModified)
    case ReadFails(mtime) =>
      if lastModified.Some? && mtime <= lastModified.value then (template, lastModified)
      else (BasicTemplate(), lastModified)
    case Readable(mtime, content) =>
      if lastModified.Some? && mtime <= lastModified.value then (template, lastModified)
      else
        match TemplateSection(content)
        case Ok(t) => (t, Some(mtime))
        case Err(_) => (BasicTemplate(), lastModified)
  }

  /** Loading the same file twice in a row is loading it once. */
  lemma LoadStepIdempotent(template: string, lastModified: Option<int>, file: FileState)
    ensures var (t, m) := LoadStep(template, lastModified, file);
            LoadStep(t, m, file) == (t, m)
  {
  }

  /** The recorded modification time never moves back, and once recorded it
      stays recorded. */
  lemma LoadStepMonotone(template: string, lastModified: Option<int>, file: FileState)
    ensures var (_, m) := LoadStep(template, lastModified, file);
            lastModified.Some? ==> m.Some? && lastModified.value <= m.value
  {
  }

  /** A successful load records the file's time and stores its section. */
  lemma LoadStepReadsNewer(template: string, lastModified: Option<int>, mtime: int, content: string)
    requires lastModified.None? || lastModified.value < mtime
    requires TemplateSection(content).Ok?
    ensures LoadStep(template, lastModified, Readable(mtime, content))
            == (TemplateSection(content).value, Some(mtime))
  {
  }

  // ---------------------------------------------------------------------
  // generatePrompt
  // ---------------------------------------------------------------------

  /** Why `generatePrompt` throws: a required variable is missing, or the
      state is a truthy value that is not a string (`trim` is not a
      function of it). */
  datatype PromptError = MissingVariables(names: seq<string>) | StateNotText

  /** The message of the error thrown for missing variables. */
  function MissingVariablesMessage(names: seq<string>): string
  {
    "Missing required variables: " + Join(names, ", ")
  }

  /** The texts `join` puts between its separators: `null` gives "". */
  function ItemTexts(items: seq<Json>): seq<string>
  {
    seq(|items|, i requires 0 <= i < |items| =>
          if items[i].JNull? then "" else ToJsString(items[i]))
  }

  /** `Array.isArray(ages) ? ages.join(', ') : ages`. */
  function AgesValue(ages: Option<Json>): Option<Json>
  {
    if ages.Some? && ages.value.JArr? then Some(JStr(Join(ItemTexts(ages.value.items), ", ")))
    else ages
  }

  /** The text of a preferences value: empty, or the value after a fixed
      lead-in. */
  function PreferencesText(preferences: Option<Json>): string
  {
    if TruthyOpt(preferences) then " Additional preferences: " + ToJsString(preferences.value) else ""
  }

  /** The state a form's `state` field normalises: falsy values, which
      `normalize` treats alike, are the empty text. */
  function StateText(state: Option<Json>): string
  {
    if TruthyOpt(state) && state.value.JStr? then state.value.s else ""
  }

  /** The variables object, in its key order. */
  function PromptVariables(form: map<string, Json>, info: StateInfo): (vars: seq<(string, Json)>)
    ensures Keys(vars) == ["city", "state", "ages", "availability", "distance", "preferences"]
  {
    [ ("city", OrDefault(Get(form, "city"), JStr(""))),
      ("state", if info.isValid then JStr(info.fullName) else OrDefault(Get(form, "state"), JStr(""))),
      ("ages", OrDefault(AgesValue(Get(form, "ages")), JStr(""))),
      ("availability", OrDefault(Get(form, "availability"), JStr(""))),
      ("distance", OrDefault(Get(form, "distance"), JStr("10"))),
      ("preferences", JStr(PreferencesText(Get(form, "preferences")))) ]
  }

  /** A required variable that counts as missing: a string that is empty or
      all whitespace, or a falsy value. */
  predicate IsBlankValue(v: Json)
  {
    if v.JStr? then Trim(v.s) == "" else !Truthy(v)
  }

  const RequiredVariables: seq<string> := ["city", "ages", "availability", "distance"]

  /** The required names whose value is blank, in the order listed. */
  function MissingRequired(vars: seq<(string, Json)>, required: seq<string>): (missing: seq<string>)
  {
    if required == [] then []
    else (if IsMissing(vars, required[0]) then [required[0]] else []) + MissingRequired(vars, required[1..])
  }

  /** The missing names are exactly the required names whose value is
      blank. */
  lemma {:induction false} MissingRequiredMembers(vars: seq<(string, Json)>, required: seq<string>)
    ensures forall x :: x in MissingRequired(vars, required) <==> x in required && IsMissing(vars, x)
  {
    if required != [] {
      MissingRequiredMembers(vars, required[1..]);
      assert required == [required[0]] + required[1..];
    }
  }

  /** The prompt `generatePrompt(form)` returns for the loaded template. */
  function PromptFor(template: string, form: map<string, Json>): (r: Result<string, PromptError>)
    ensures r.Err? && r.error.MissingVariables? ==>
              r.error.names != [] && forall x :: x in r.error.names ==> x in RequiredVariables
    ensures r.Err? && r.error.MissingVariables? ==>
              r.error.names == MissingRequired(PromptVariables(form, Normalize(StateText(Get(form, "state")))), RequiredVariables)
    ensures r.Err? && r.error.StateNotText? <==>
              TruthyOpt(Get(form, "state")) && !Get(form, "state").value.JStr?
    ensures r.Ok? ==> r.value == Rendered(template, PromptVariables(form, Normalize(StateText(Get(form, "state")))))
  {
    var state := Get(form, "state");
    if TruthyOpt(state) && !state.value.JStr? then Err(StateNotText)
    else
      var vars := PromptVariables(form, Normalize(StateText(state)));
      var missing := MissingRequired(vars, RequiredVariables);
      MissingRequiredMembers(vars, RequiredVariables);
      if missing != [] then Err(MissingVariables(missing))
      else Ok(Rendered(template, vars))
  }

  /** A form field that supplies a required variable: truthy and, as a
      string, not all whitespace. */
  predicate Supplies(v: Option<Json>)
  {
    TruthyOpt(v) && (v.value.JStr? ==> Trim(v.value.s) != "")
  }

  /** The first entry for `key` gives its value. */
  lemma {:induction false} LookupFirst(vars: seq<(string, Json)>, key: string, i: nat)
    requires i < |vars| && vars[i].0 == key
    requires forall j :: 0 <= j < i ==> vars[j].0 != key
    ensures Lookup(vars, key) == Some(vars[i].1)
  {
    if i > 0 {
      LookupFirst(vars[1..], key, i - 1);
    }
  }

  /** Each required variable is found at its place in the variables. */
  lemma LookupVariables(form: map<string, Json>, info: StateInfo)
    ensures var vars := PromptVariables(form, info);
            && Lookup(vars, "city") == Some(vars[0].1)
            && Lookup(vars, "ages") == Some(vars[2].1)
            && Lookup(vars, "availability") == Some(vars[3].1)
            && Lookup(vars, "distance") == Some(vars[4].1)
  {
    var vars := PromptVariables(form, info);
    LookupFirst(vars, "city", 0);
    LookupFirst(vars, "ages", 2);
    LookupFirst(vars, "availability", 3);
    LookupFirst(vars, "distance", 4);
  }

  /** Whether the value `v || d` is blank. */
  lemma BlankOrDefault(v: Option<Json>, d: Json)
    ensures IsBlankValue(OrDefault(v, d)) <==> (if TruthyOpt(v) then !Supplies(v) else IsBlankValue(d))
  {
  }

  /** `generatePrompt` succeeds exactly when the state is text or falsy and
      city, ages and availability are supplied, and distance is absent,
      falsy or supplied. */
  lemma PromptForSucceeds(template: string, form: map<string, Json>)
    ensures PromptFor(template, form).Ok? <==>
              && !(TruthyOpt(Get(form, "state")) && !Get(form, "state").value.JStr?)
              && Supplies(Get(form, "city"))
              && Supplies(AgesValue(Get(form, "ages")))
              && Supplies(Get(form, "availability"))
              && (!TruthyOpt(Get(form, "distance")) || Supplies(Get(form, "distance")))
  {
    var vars := PromptVariables(form, Normalize(StateText(Get(form, "state"))));
    LookupVariables(form, Normalize(StateText(Get(form, "state"))));
    BlankOrDefault(Get(form, "city"), JStr(""));
    BlankOrDefault(AgesValue(Get(form, "ages")), JStr(""));
    BlankOrDefault(Get(form, "availability"), JStr(""));
    BlankOrDefault(Get(form, "distance"), JStr("10"));
    assert !IsBlankValue(JStr("10")) by { TrimOfTrimmed("10"); }
    assert IsBlankValue(JStr(""));
    MissingRequiredOfVariables(vars);
  }

  /** Whether the required variable `x` is missing from `vars`. */
  predicate IsMissing(vars: seq<(string, Json)>, x: string)
  {
    Lookup(vars, x).None? || IsBlankValue(Lookup(vars, x).value)
  }

  /** One step of the filter over the required names. */
  lemma MissingRequiredCons(vars: seq<(string, Json)>, x: string, rest: seq<string>)
    ensures MissingRequired(vars, [x] + rest)
            == (if IsMissing(vars, x) then [x] else []) + MissingRequired(vars, rest)
  {
    assert ([x] + rest)[1..] == rest;
  }

  /** Which required variables are missing, spelled out. */
  lemma MissingRequiredOfVariables(vars: seq<(string, Json)>)
    ensures MissingRequired(vars, RequiredVariables)
            == (if IsMissing(vars, "city") then ["city"] else [])
             + ((if IsMissing(vars, "ages") then ["ages"] else [])
             + ((if IsMissing(vars, "availability") then ["availability"] else [])
             + (if IsMissing(vars, "distance") then ["distance"] else [])))
  {
    MissingRequiredCons(vars, "distance", []);
    assert MissingRequired(vars, []) == [];
    MissingRequiredCons(vars, "availability", ["distance"]);
    MissingRequiredCons(vars, "ages", ["availability", "distance"]);
    MissingRequiredCons(vars, "city", ["ages", "availability", "distance"]);
    assert RequiredVariables == ["city"] + ["ages", "availability", "distance"];
    assert ["ages", "availability", "distance"] == ["ages"] + ["availability", "distance"];
    assert ["availability", "distance"] == ["availability"] + ["distance"];
    assert ["distance"] == ["distance"] + [];
  }

  /** The missing names are reported in the order city, ages,
      availability, distance. */
  lemma MissingInOrder(form: map<string, Json>, info: StateInfo)
    requires Get(form, "city").None? && Get(form, "distance").None?
    requires Get(form, "ages").None? && Get(form, "availability").None?
    ensures MissingRequired(PromptVariables(form, info), RequiredVariables) == ["city", "ages", "availability"]
  {
    var vars := PromptVariables(form, info);
    LookupVariables(form, info);
    MissingRequiredOfVariables(vars);
    assert IsBlankValue(JStr(""));
    assert !IsBlankValue(JStr("10")) by { TrimOfTrimmed("10"); }
  }

  /** A falsy distance becomes the text "10". */
  lemma DistanceDefaultsToTen(form: map<string, Json>, info: StateInfo)
    requires !TruthyOpt(Get(form, "distance"))
    ensures PromptVariables(form, info)[4] == ("distance", JStr("10"))
  {
  }

  /** A state text that normalises to a known state is replaced by that
      state's full name; any other non-empty text is passed on as given. */
  lemma StateVariable(form: map<string, Json>, s: string)
    requires Get(form, "state") == Some(JStr(s)) && s != ""
    ensures var info := Normalize(s);
            PromptVariables(form, Normalize(StateText(Get(form, "state"))))[1]
            == ("state", JStr(if info.isValid then info.fullName else s))
  {
  }

  /** Every abbreviation and every full name of the table puts the full
      name into the prompt. */
  lemma StateBecomesFullName(form: map<string, Json>, i: nat)
    requires i < TableSize
    requires Get(form, "state") == Some(JStr(StateEntry(i).0)) || Get(form, "state") == Some(JStr(StateEntry(i).1))
    ensures PromptVariables(form, Normalize(StateText(Get(form, "state"))))[1] == ("state", JStr(StateEntry(i).1))
  {
    var (a, n) := StateEntry(i);
    EveryStateNormalizes(i);
    EntriesWellFormed(i);
    var s := Get(form, "state").value.s;
    assert s == a || s == n;
    StateVariable(form, s);
  }

  /** An array of ages is joined with ", ". */
  lemma AgesJoined(items: seq<Json>)
    requires items == [JNum(5), JNum(8)]
    ensures AgesValue(Some(JArr(items))) == Some(JStr("5, 8"))
  {
    assert ItemTexts(items) == ["5", "8"] by {
      assert DigitChar(5) == '5' && DigitChar(8) == '8';
      assert ToJsString(JNum(5)) == "5" && ToJsString(JNum(8)) == "8";
    }
    assert Join(["5", "8"], ", ") == "5, 8" by {
      assert ["5", "8"][1..] == ["8"];
    }
  }

  // ---------------------------------------------------------------------
  // The manager object
  // ---------------------------------------------------------------------

  class PromptManager {
    const promptFilePath: string
    /** The loaded template; the empty text stands for none. */
    var template: string
    /** The modification time of the last file successfully loaded. */
    var lastModified: Option<int>

    /** `new PromptManager(path)`, which loads the template at once. */
    constructor(promptFilePath: string, file: FileState)
      ensures this.promptFilePath == promptFilePath
      ensures (template, lastModified) == LoadStep("", None, file)
    {
      this.promptFilePath := promptFilePath;
      template := "";
      lastModified := None;
      new;
      LoadTemplate(file);
    }

    /** `loadTemplate()`. */
    method LoadTemplate(file: FileState)
      modifies this
      ensures (template, lastModified) == LoadStep(old(template), old(lastModified), file)
    {
      match file {
        case StatFails =>
          template := BasicTemplate();
        case ReadFails(mtime) =>
          if lastModified.Some? && mtime <= lastModified.value {
            return;
          }
          template := BasicTemplate();
        case Readable(mtime, content) =>
          if lastModified.Some? && mtime <= lastModified.value {
            return;
          }
          var parsed := ParseMarkdownTemplate(content);
          match parsed {
            case Ok(t) =>
              template := t;
              lastModified := Some(mtime);
            case Err(_) =>
              template := BasicTemplate();
          }
      }
    }

    /** `generatePrompt(formData)`: reload if the file changed, then build
      the prompt from the form. */
    method GeneratePrompt(formData: map<string, Json>, file: FileState) returns (r: Result<string, PromptError>)
      modifies this
      ensures (template, lastModified) == LoadStep(old(template), old(lastModified), file)
      ensures r == PromptFor(template, formData)
    {
      LoadTemplate(file);
      var state := Get(formData, "state");
      if TruthyOpt(state) && !state.value.JStr? {
        return Err(StateNotText);
      }
      var stateInfo := Normalize(StateText(state));
      var variables := PromptVariables(formData, stateInfo);
      var missing := MissingRequired(variables, RequiredVariables);
      if missing != [] {
        return Err(MissingVariables(missing));
      }
      var prompt := Render(PromptTemplate(template), variables);
      return Ok(prompt);
    }

    /** `getTemplateVariables()`: load first if no template is held. */
    method GetTemplateVariables(file: FileState) returns (names: seq<string>)
      modifies this
      ensures old(template) == "" ==>
                (template, lastModified) == LoadStep(old(template), old(lastModified), file)
      ensures old(template) != "" ==> template == old(template) && lastModified == old(lastModified)
      ensures names == VariableNames(template)
    {
      if template == "" {
        LoadTemplate(file);
      }
      names := VariableNames(template);
    }
  }
}
