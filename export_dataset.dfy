/**
 * The `export_dataset` management command
 * (backend/cases/management/commands/export_dataset.py): select the cases
 * with a given status, and write them with their related rows as CSV (one
 * flattened row per case), as one JSON array, or as JSON Lines (one compact
 * record per line).
 *
 * The file is modelled by its content: CSV as rows of cells, JSON as the
 * value written, JSON Lines as the text. The clock is a parameter.
 */
module ExportDataset {
  import opened Wrappers
  import opened Strings
  import opened Json
  import opened CaseModels

  // ------------------------------------------------------------- options

  datatype Format = Csv | JsonArray | JsonLines

  /** The `--format` choices. */
  function FormatName(f: Format): string {
    match f
    case Csv => "csv"
    case JsonArray => "json"
    case JsonLines => "jsonl"
  }

  /** `choices=['csv', 'json', 'jsonl']`: any other value is refused by the argument parser. */
  function ParseFormat(s: string): (r: Option<Format>)
    ensures r.Some? ==> FormatName(r.value) == s
  {
    if s == "csv" then Some(Csv)
    else if s == "json" then Some(JsonArray)
    else if s == "jsonl" then Some(JsonLines)
    else None
  }

  /** Each format's name reads back as that format, and only the three names are accepted. */
  lemma FormatRoundTrip(f: Format, s: string)
    ensures ParseFormat(FormatName(f)) == Some(f)
    ensures ParseFormat(s).None? <==> s != "csv" && s != "json" && s != "jsonl"
  {
  }

  datatype Options = Options(format: Format, outputPath: string, status: string)

  /** The parsed options; an absent option takes its default: CSV, `./data_exports`, `approuve`. */
  function ParseOptions(format: Option<string>, outputPath: Option<string>, status: Option<string>): (r: Result<Options, string>)
    ensures r.Err? <==> format.Some? && ParseFormat(format.value).None?
    ensures r.Ok? ==> r.value.status == status.GetOr("approuve") && r.value.outputPath == outputPath.GetOr("./data_exports")
    ensures r.Ok? && format.None? ==> r.value.format == Csv
  {
    var f :- if format.None? then Ok(Csv)
             else if ParseFormat(format.value).Some? then Ok(ParseFormat(format.value).value)
             else Err("invalid choice: " + format.value);
    Ok(Options(f, outputPath.GetOr("./data_exports"), status.GetOr("approuve")))
  }

  // ----------------------------------------------------------- selection

  /** `ClinicalCase.objects.filter(status=status)`, in table order. */
  function Selected(t: CaseTables, status: string): seq<ClinicalCase> {
    Filter(t.cases, (c: ClinicalCase) => StatusValue(c.status) == status)
  }

  /** Exactly the cases with the requested status are exported, each once. */
  lemma SelectedMeaning(t: CaseTables, status: string, c: ClinicalCase)
    requires Valid(t)
    ensures c in Selected(t, status) <==> c in t.cases && StatusValue(c.status) == status
    ensures DistinctBy(Selected(t, status), (x: ClinicalCase) => x.id)
  {
    var keep := (x: ClinicalCase) => StatusValue(x.status) == status;
    var s := Selected(t, status);
    if c in s {
      var k :| 0 <= k < |s| && s[k] == c;
    }
    if c in t.cases && keep(c) {
      var k :| 0 <= k < |t.cases| && t.cases[k] == c;
    }
    FilterDistinct(t.cases, keep, (x: ClinicalCase) => x.id);
  }

  /** Two filters that agree on every element select the same elements. */
  lemma {:induction false} FilterAgree<T>(s: seq<T>, p: T -> bool, q: T -> bool)
    requires forall k :: 0 <= k < |s| ==> p(s[k]) == q(s[k])
    ensures Filter(s, p) == Filter(s, q)
    decreases |s|
  {
    if s != [] {
      FilterAgree(s[1..], p, q);
      assert p(s[0]) == q(s[0]);
    }
  }

  /** With the default status the export holds exactly the cases learners can practise on, in the same order. */
  lemma DefaultExportIsVisibleCases(t: CaseTables)
    ensures Selected(t, "approuve") == VisibleCases(t)
  {
    FilterAgree(t.cases, (c: ClinicalCase) => StatusValue(c.status) == "approuve", (c: ClinicalCase) => c.status == Approuve);
  }

  // --------------------------------------------------------------- naming

  /** `f"dataset_{status}_{timestamp}.{file_format}"`. */
  function FileName(status: string, timestamp: string, f: Format): string {
    "dataset_" + status + "_" + timestamp + "." + FormatName(f)
  }

  /** `os.path.join(directory, name)` for POSIX paths. */
  function PathJoin(dir: string, name: string): string {
    if StartsWith(name, "/") then name
    else if dir == [] || EndsWith(dir, "/") then dir + name
    else dir + "/" + name
  }

  /** The file sits in the output directory and its name carries the status and the format. */
  lemma FileNameMeaning(dir: string, status: string, timestamp: string, f: Format)
    ensures var name := FileName(status, timestamp, f);
      StartsWith(name, "dataset_" + status + "_") && EndsWith(name, "." + FormatName(f))
      && EndsWith(PathJoin(dir, name), name) && StartsWith(PathJoin(dir, name), dir)
  {
    var name := FileName(status, timestamp, f);
    assert name == ("dataset_" + status + "_") + (timestamp + "." + FormatName(f));
    assert name == ("dataset_" + status + "_" + timestamp) + ("." + FormatName(f));
    assert !StartsWith(name, "/") by {
      assert name[0] == 'd';
    }
    var p := PathJoin(dir, name);
    if dir == [] || EndsWith(dir, "/") {
      assert p == dir + name;
    } else {
      assert p == dir + ("/" + name);
      assert p == (dir + "/") + name;
    }
  }

  // ------------------------------------------------------------------ CSV

  const CsvHeader: seq<string> := [
    "id", "case_title", "case_summary", "age", "sexe", "symptoms_list", "medical_history_json", "diagnoses_list"]

  /** `" | ".join(names) if rows else ""`. */
  function PipeCell(names: seq<string>): string {
    if names == [] then "" else Join(names, " | ")
  }

  /** `{'type': h.get_type_display(), 'description': h.description}`. */
  function HistoryItem(h: MedicalHistory): JsonValue {
    JObject([Member("type", JString(HistoryTypeDisplay(h.typ))), Member("description", JString(h.description))])
  }

  function HistoryItems(hs: seq<MedicalHistory>): seq<JsonValue> {
    seq(|hs|, k requires 0 <= k < |hs| => HistoryItem(hs[k]))
  }

  /** `json.dumps(history_list, ensure_ascii=False) if history_list else ""`. */
  function HistoryCell(hs: seq<MedicalHistory>): string {
    if hs == [] then "" else Serialize(JArray(HistoryItems(hs)))
  }

  /** The eight cells of a case, in header order. */
  function CsvRow(t: CaseTables, c: ClinicalCase): seq<string> {
    [IntToDecimal(c.id), c.caseTitle, c.caseSummary, IntToDecimal(c.age), c.sexe,
     PipeCell(SymptomNames(SymptomsOf(t, c.id))), HistoryCell(HistoryOf(t, c.id)),
     PipeCell(DiagnosisDescriptions(DiagnosesOf(t, c.id)))]
  }

  /** The header row, then one row per case in order. */
  function CsvTable(t: CaseTables, cases: seq<ClinicalCase>): seq<seq<string>> {
    [CsvHeader] + seq(|cases|, k requires 0 <= k < |cases| => CsvRow(t, cases[k]))
  }

  /** The file has the header and then exactly one eight-cell row per case. */
  lemma CsvShape(t: CaseTables, cases: seq<ClinicalCase>)
    ensures var rows := CsvTable(t, cases);
      |rows| == |cases| + 1 && rows[0] == CsvHeader
      && forall k :: 0 <= k < |rows| ==> |rows[k]| == |CsvHeader| == 8
  {
  }

  /** The number cells read back as the case's id and age. */
  lemma CsvNumbersReadBack(t: CaseTables, c: ClinicalCase)
    ensures ParseDecimal(CsvRow(t, c)[0]) == Some(c.id) && ParseDecimal(CsvRow(t, c)[3]) == Some(c.age)
  {
    DecimalRoundTrip(c.id);
    DecimalRoundTrip(c.age);
  }

  /**
   * A list cell is empty when there is no row, and otherwise (when no name is
   * empty) is not; it holds every name and a separator between neighbours.
   */
  lemma PipeCellMeaning(names: seq<string>)
    ensures names == [] ==> PipeCell(names) == ""
    ensures names != [] ==> |PipeCell(names)| == TotalLength(names) + 3 * (|names| - 1)
    ensures (forall k :: 0 <= k < |names| ==> names[k] != "") ==> (PipeCell(names) == "" <==> names == [])
  {
    JoinLength(names, " | ");
    if names != [] {
      JoinEmptyIff(names, " | ");
    }
  }

  /** The history cell is empty exactly when the case has no history, and otherwise is one line of JSON array text. */
  lemma HistoryCellMeaning(hs: seq<MedicalHistory>)
    ensures HistoryCell(hs) == "" <==> hs == []
    ensures hs != [] ==> StartsWith(HistoryCell(hs), "[") && EndsWith(HistoryCell(hs), "]")
    ensures '\n' !in HistoryCell(hs)
  {
    if hs != [] {
      var s := HistoryCell(hs);
      var body := Join(SerializeItems(HistoryItems(hs)), ", ");
      assert s == "[" + body + "]";
      assert s[0] == '[';
      SerializeNoNewline(JArray(HistoryItems(hs)));
    }
  }

  /** Every item of the history cell carries the type's display label (or the raw value) and the description. */
  lemma HistoryItemMeaning(h: MedicalHistory, t: HistoryType)
    ensures HistoryItem(h).members[0] == Member("type", JString(HistoryTypeDisplay(h.typ)))
    ensures h.typ == HistoryTypeValue(t) ==> HistoryItem(h).members[0].value == JString(HistoryTypeLabel(t))
    ensures HistoryItem(h).members[1] == Member("description", JString(h.description))
  {
    HistoryTypeDisplayMeaning(t, t, h.typ);
  }

  /** `_export_to_csv`: the header, then one row per case. */
  method ExportCsv(t: CaseTables, cases: seq<ClinicalCase>) returns (rows: seq<seq<string>>)
    ensures rows == CsvTable(t, cases)
  {
    rows := [CsvHeader];
    var i := 0;
    while i < |cases|
      invariant 0 <= i <= |cases|
      invariant rows == [CsvHeader] + seq(i, k requires 0 <= k < i => CsvRow(t, cases[k]))
    {
      rows := rows + [CsvRow(t, cases[i])];
      i := i + 1;
    }
  }

  // ----------------------------------------------------------------- JSON

  function SymptomJson(s: Symptom): JsonValue {
    JObject([Member("nom", JString(s.nom)), Member("localisation", JString(s.localisation)), Member("degre", JInt(s.degre))])
  }

  function ExamJson(e: ComplementaryExam): JsonValue {
    JObject([Member("nom", JString(e.nom)), Member("resultat", JString(e.resultat))])
  }

  function FindingJson(p: PhysicalFinding): JsonValue {
    JObject([Member("nom_examen", JString(p.nomExamen)), Member("resultat_observation", JString(p.resultatObservation))])
  }

  function DiagnosisJson(d: Diagnosis): JsonValue {
    JObject([Member("description", JString(d.description)), Member("is_final", JBool(d.isFinal))])
  }

  /** The keys of an exported record, in the order they are written. */
  const RecordKeys: seq<string> := [
    "id", "source_fultang_id", "case_title", "case_summary", "learning_objectives", "motif_consultation",
    "age", "sexe", "mode_de_vie", "symptoms", "history", "exams", "physical_findings", "diagnoses"]

  /** One case as an exported record, its related rows as lists in table order. */
  function CaseJson(t: CaseTables, c: ClinicalCase): JsonValue {
    var ss := SymptomsOf(t, c.id);
    var hs := HistoryOf(t, c.id);
    var es := ExamsOf(t, c.id);
    var fs := FindingsOf(t, c.id);
    var ds := DiagnosesOf(t, c.id);
    JObject([
      Member("id", JInt(c.id)),
      Member("source_fultang_id", JString(c.sourceId)),
      Member("case_title", JString(c.caseTitle)),
      Member("case_summary", JString(c.caseSummary)),
      Member("learning_objectives", JString(c.learningObjectives)),
      Member("motif_consultation", JString(c.motif)),
      Member("age", JInt(c.age)),
      Member("sexe", JString(c.sexe)),
      Member("mode_de_vie", c.modeDeVie),
      Member("symptoms", JArray(seq(|ss|, k requires 0 <= k < |ss| => SymptomJson(ss[k])))),
      Member("history", JArray(HistoryItems(hs))),
      Member("exams", JArray(seq(|es|, k requires 0 <= k < |es| => ExamJson(es[k])))),
      Member("physical_findings", JArray(seq(|fs|, k requires 0 <= k < |fs| => FindingJson(fs[k])))),
      Member("diagnoses", JArray(seq(|ds|, k requires 0 <= k < |ds| => DiagnosisJson(ds[k]))))])
  }

  /**
   * A record has the fourteen keys in order, and each list holds exactly
   * one item per related row of the case.
   */
  lemma CaseJsonMeaning(t: CaseTables, c: ClinicalCase)
    ensures var ms := CaseJson(t, c).members;
      |ms| == |RecordKeys| && (forall k :: 0 <= k < |ms| ==> ms[k].key == RecordKeys[k])
      && ms[0].value == JInt(c.id) && ms[1].value == JString(c.sourceId)
      && |ms[9].value.items| == |SymptomsOf(t, c.id)| && |ms[10].value.items| == |HistoryOf(t, c.id)|
      && |ms[11].value.items| == |ExamsOf(t, c.id)| && |ms[12].value.items| == |FindingsOf(t, c.id)|
      && |ms[13].value.items| == |DiagnosesOf(t, c.id)|
      && (forall k :: 0 <= k < |DiagnosesOf(t, c.id)| ==>
            ms[13].value.items[k] == DiagnosisJson(DiagnosesOf(t, c.id)[k]))
  {
  }

  /** The records of the selected cases, in order. */
  function Dataset(t: CaseTables, cases: seq<ClinicalCase>): seq<JsonValue> {
    seq(|cases|, k requires 0 <= k < |cases| => CaseJson(t, cases[k]))
  }

  /** The loop of `_export_to_json` that builds `dataset_list`. */
  method BuildDataset(t: CaseTables, cases: seq<ClinicalCase>) returns (records: seq<JsonValue>)
    ensures records == Dataset(t, cases)
  {
    records := [];
    var i := 0;
    while i < |cases|
      invariant 0 <= i <= |cases|
      invariant records == seq(i, k requires 0 <= k < i => CaseJson(t, cases[k]))
    {
      records := records + [CaseJson(t, cases[i])];
      i := i + 1;
    }
  }

  /** JSON Lines: each record serialised compactly and followed by a line break. */
  function JsonlText(records: seq<JsonValue>): string
    decreases |records|
  {
    if records == [] then "" else Serialize(records[0]) + "\n" + JsonlText(records[1..])
  }

  lemma {:induction false} JsonlAppend(records: seq<JsonValue>, r: JsonValue)
    ensures JsonlText(records + [r]) == JsonlText(records) + Serialize(r) + "\n"
    decreases |records|
  {
    if records != [] {
      var first := Serialize(records[0]) + "\n";
      assert (records + [r])[0] == records[0];
      assert (records + [r])[1..] == records[1..] + [r];
      assert JsonlText(records + [r]) == first + JsonlText(records[1..] + [r]);
      JsonlAppend(records[1..], r);
      ConcatRegroup(first, JsonlText(records[1..]), Serialize(r), "\n");
    } else {
      assert ([] + [r])[1..] == [];
    }
  }

  /** The JSON Lines branch: one write per record. */
  method WriteJsonl(records: seq<JsonValue>) returns (text: string)
    ensures text == JsonlText(records)
  {
    text := "";
    var i := 0;
    while i < |records|
      invariant 0 <= i <= |records|
      invariant text == JsonlText(records[..i])
    {
      JsonlAppend(records[..i], records[i]);
      assert records[..i + 1] == records[..i] + [records[i]];
      text := text + Serialize(records[i]) + "\n";
      i := i + 1;
    }
    assert records[..i] == records;
  }

  /** How many characters the first line of a text has (up to the first line break or the end). */
  function FirstLineLength(s: string): (n: nat)
    ensures n <= |s| && (n < |s| ==> s[n] == '\n')
    ensures forall k :: 0 <= k < n ==> s[k] != '\n'
    decreases |s|
  {
    if s == [] || s[0] == '\n' then 0 else 1 + FirstLineLength(s[1..])
  }

  /** The lines of a text whose lines each end with a line break. */
  function Lines(s: string): seq<string>
    decreases |s|
  {
    if s == [] then []
    else
      var n := FirstLineLength(s);
      [s[..n]] + (if n < |s| then Lines(s[n + 1..]) else [])
  }

  /** A line without a line break, then a break, is read as that line. */
  lemma LinesCons(line: string, rest: string)
    requires '\n' !in line
    ensures Lines(line + "\n" + rest) == [line] + Lines(rest)
  {
    var s := line + "\n" + rest;
    var n := FirstLineLength(s);
    assert s[|line|] == '\n';
    assert forall k :: 0 <= k < |line| ==> s[k] == line[k];
    assert n == |line|;
    assert s[..n] == line;
    assert s[n + 1..] == rest;
  }

  /**
   * Reading a JSON Lines text back line by line gives exactly the records'
   * compact serialisations, one line per exported case.
   */
  lemma {:induction false} JsonlLines(records: seq<JsonValue>)
    ensures Lines(JsonlText(records)) == seq(|records|, k requires 0 <= k < |records| => Serialize(records[k]))
    ensures records != [] ==> EndsWith(JsonlText(records), "\n")
    decreases |records|
  {
    if records != [] {
      var head := Serialize(records[0]);
      var rest := records[1..];
      JsonlLines(rest);
      SerializeNoNewline(records[0]);
      assert JsonlText(records) == head + "\n" + JsonlText(rest);
      LinesCons(head, JsonlText(rest));
      SerializationsCons(records);
      JsonlEndsWithBreak(head, JsonlText(rest));
    }
  }

  /** The serialisations of a non-empty list: the first record's, then the rest's. */
  lemma SerializationsCons(records: seq<JsonValue>)
    requires records != []
    ensures seq(|records|, k requires 0 <= k < |records| => Serialize(records[k]))
         == [Serialize(records[0])] + seq(|records| - 1, k requires 0 <= k < |records| - 1 => Serialize(records[1..][k]))
  {
  }

  /** A record's line followed by a text that is empty or ends with a break ends with a break. */
  lemma JsonlEndsWithBreak(head: string, rest: string)
    requires rest == [] || EndsWith(rest, "\n")
    ensures EndsWith(head + "\n" + rest, "\n")
  {
    if rest == [] {
      assert head + "\n" + rest == head + "\n";
    } else {
      assert (head + "\n" + rest)[|head + "\n" + rest| - 1] == rest[|rest| - 1];
    }
  }


  // -------------------------------------------------------------- handle

  /** What ends up in the file. */
  datatype FileContent = CsvRows(rows: seq<seq<string>>) | JsonDocument(value: JsonValue) | JsonLinesText(text: string)

  /** The command's effect: a warning and no file, or a file at a path. */
  datatype ExportResult = NothingToExport(warning: string) | Written(path: string, content: FileContent)

  /** The warning as the source writes it: without the `f` prefix, `{status}` is printed literally. */
  function NoMatchMessageAsWritten(status: string): string {
    "Aucun cas clinique avec le statut '{status}' n'a été trouvé."
  }

  /** As written, the warning names no status: two different statuses give the same text. */
  lemma NoMatchMessageIgnoresStatus(s1: string, s2: string)
    ensures NoMatchMessageAsWritten(s1) == NoMatchMessageAsWritten(s2)
    ensures NoMatchMessageAsWritten("rejete") == "Aucun cas clinique avec le statut '{status}' n'a été trouvé."
  {
  }

  const NoMatchPrefix: string := "Aucun cas clinique avec le statut '"
  const NoMatchSuffix: string := "' n'a été trouvé."

  /** The intended warning, with the requested status in it. */
  function NoMatchMessage(status: string): (r: string)
    ensures StartsWith(r, NoMatchPrefix) && EndsWith(r, NoMatchSuffix)
  {
    NoMatchPrefix + status + NoMatchSuffix
  }

  /** The intended warning names the status: the status reads back from it, so different statuses give different warnings. */
  lemma NoMatchMessageNamesStatus(status: string, other: string)
    ensures var m := NoMatchMessage(status);
      |m| == |NoMatchPrefix| + |status| + |NoMatchSuffix|
      && m[|NoMatchPrefix|..|NoMatchPrefix| + |status|] == status
    ensures NoMatchMessage(status) == NoMatchMessage(other) ==> status == other
  {
    var m := NoMatchMessage(status);
    assert m[|NoMatchPrefix|..|NoMatchPrefix| + |status|] == status;
    if NoMatchMessage(status) == NoMatchMessage(other) {
      var m2 := NoMatchMessage(other);
      assert |status| == |other|;
      assert m2[|NoMatchPrefix|..|NoMatchPrefix| + |other|] == other;
    }
  }

  /** `handle`, with the clock's reading as a parameter. */
  function HandleSpec(t: CaseTables, opts: Options, timestamp: string): ExportResult {
    var cases := Selected(t, opts.status);
    if cases == [] then NothingToExport(NoMatchMessageAsWritten(opts.status))
    else
      var path := PathJoin(opts.outputPath, FileName(opts.status, timestamp, opts.format));
      match opts.format
      case Csv => Written(path, CsvRows(CsvTable(t, cases)))
      case JsonArray => Written(path, JsonDocument(JArray(Dataset(t, cases))))
      case JsonLines => Written(path, JsonLinesText(JsonlText(Dataset(t, cases))))
  }

  /**
   * No file is written when no case has the status, and the warning is then
   * the literal text whatever the status; otherwise one file, named after
   * status, time and format.
   */
  lemma HandleMeaning(t: CaseTables, opts: Options, timestamp: string)
    ensures var r := HandleSpec(t, opts, timestamp);
      (r.NothingToExport? <==> forall c :: c in t.cases ==> StatusValue(c.status) != opts.status)
      && (r.NothingToExport? ==> r.warning == "Aucun cas clinique avec le statut '{status}' n'a été trouvé.")
      && (r.Written? ==> EndsWith(r.path, FileName(opts.status, timestamp, opts.format)))
      && (r.Written? && opts.format == JsonLines ==> |Lines(r.content.text)| == |Selected(t, opts.status)|)
  {
    var cases := Selected(t, opts.status);
    if cases != [] {
      assert cases[0] in t.cases;
      FileNameMeaning(opts.outputPath, opts.status, timestamp, opts.format);
      JsonlLines(Dataset(t, cases));
    } else {
      forall c | c in t.cases ensures StatusValue(c.status) != opts.status {
        var k :| 0 <= k < |t.cases| && t.cases[k] == c;
      }
    }
  }

  /** `handle` with the warning as evidently intended: the same outcome, except that the warning names the status. */
  function HandleIntended(t: CaseTables, opts: Options, timestamp: string): ExportResult {
    match HandleSpec(t, opts, timestamp)
    case NothingToExport(_) => NothingToExport(NoMatchMessage(opts.status))
    case Written(path, content) => Written(path, content)
  }

  /**
   * The corrected command writes exactly what the command as written does,
   * and when it writes nothing its warning names the status, which reads
   * back from it.
   */
  lemma HandleIntendedMeaning(t: CaseTables, opts: Options, timestamp: string)
    ensures var r := HandleIntended(t, opts, timestamp);
      (r.Written? <==> HandleSpec(t, opts, timestamp).Written?)
      && (r.Written? ==> r == HandleSpec(t, opts, timestamp))
      && (r.NothingToExport? ==>
            StartsWith(r.warning, NoMatchPrefix) && EndsWith(r.warning, NoMatchSuffix)
            && r.warning[|NoMatchPrefix|..|NoMatchPrefix| + |opts.status|] == opts.status)
  {
    if HandleIntended(t, opts, timestamp).NothingToExport? {
      NoMatchMessageNamesStatus(opts.status, opts.status);
    }
  }

  /** `handle`. */
  method Handle(t: CaseTables, opts: Options, timestamp: string) returns (r: ExportResult)
    ensures r == HandleSpec(t, opts, timestamp)
  {
    var cases := Selected(t, opts.status);
    if cases == [] {
      return NothingToExport(NoMatchMessageAsWritten(opts.status));
    }
    var path := PathJoin(opts.outputPath, FileName(opts.status, timestamp, opts.format));
    match opts.format
    case Csv =>
      var rows := ExportCsv(t, cases);
      r := Written(path, CsvRows(rows));
    case JsonArray =>
      var records := BuildDataset(t, cases);
      r := Written(path, JsonDocument(JArray(records)));
    case JsonLines =>
      var records := BuildDataset(t, cases);
      var text := WriteJsonl(records);
      r := Written(path, JsonLinesText(text));
  }
}
