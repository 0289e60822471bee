/**
 * The `import_cases` management command
 * (backend/cases/management/commands/import_cases.py, `Command.handle`):
 * fetch the new raw records from the hospital system, skip those whose id is
 * empty or already imported, have the language model structure each of the
 * others into a flat dictionary, and save each one in a transaction of its
 * own. A failure on one record is reported and the loop moves on.
 *
 * The fetch and the model are outside the model: the fetch is given as its
 * outcome, and the model's answers as a list indexed by the record's
 * position (`None` for a call that failed).
 */
module ImportCases {
  import opened Wrappers
  import opened Json
  import opened CaseModels
  import opened CaseSchemas
  import opened CaseImporter

  /** The flat dictionary the command asks the model for. */
  datatype FlatCaseDict = FlatCaseDict(
    caseTitle: Field<string>, caseSummary: Field<string>, learningObjectives: Field<string>,
    motif: Field<string>, age: Field<int>, sexe: Field<string>,
    symptoms: Field<seq<SymptomDict>>, historyEntries: Field<seq<HistoryDict>>)

  /** The empty dictionary `{}`, the only falsy dictionary. */
  const EmptyFlat: FlatCaseDict := FlatCaseDict(Missing, Missing, Missing, Missing, Missing, Missing, Missing, Missing)

  /** A raw record from the hospital system: its `id` and the rest, which is only handed to the model. */
  datatype RawRecord = RawRecord(id: Field<string>, rest: JsonValue)

  /** Why the command stops before processing any record. */
  datatype AbortReason = ApiKeyInvalid | MockFileMissing | MockFileInvalid | FetchFailed

  /** The outcome of reading the mock file or calling the hospital system's API. */
  datatype FetchResult = Fetched(records: seq<RawRecord>) | FetchAborted(reason: AbortReason)

  /** What happened to one record. */
  datatype Outcome = Skipped | StructuringFailed | Imported(caseId: nat) | SaveFailed(error: SaveError)

  datatype Report = Aborted(reason: AbortReason) | Ran(outcomes: seq<Outcome>)

  /** The model's answer for the record at position `k`; a missing answer is a failed call. */
  function Answer(answers: seq<Option<FlatCaseDict>>, k: nat): Option<FlatCaseDict> {
    if k < |answers| then answers[k] else None
  }

  /** `not fultang_id or ClinicalCase.objects.filter(source_fultang_id=fultang_id).exists()`. */
  predicate SkipRecord(t: CaseTables, rec: RawRecord) {
    !Truthy(rec.id) || SourceIdTaken(t.cases, rec.id.value)
  }

  /** `if not structured_data`: `None` and `{}` are falsy. */
  predicate Structured(answer: Option<FlatCaseDict>) {
    answer.Some? && answer.value != EmptyFlat
  }

  /**
   * The case row of the command: title 'Titre manquant', summary, objectives
   * and reason for consultation '' when absent; `age` and `sexe` have no
   * default, so their absence leaves `None`, which the NOT NULL columns
   * refuse. Columns not passed take their model defaults; no category and no
   * suggestion record is written.
   */
  function FlatRecord(sourceId: string, d: FlatCaseDict): (r: Result<ClinicalCase, SaveError>)
    ensures r.Ok? ==> r.value.sourceId == sourceId && r.value.status == DefaultStatus && r.value.categories == {}
    ensures r.Ok? <==>
      !d.caseTitle.Null? && !d.caseSummary.Null? && !d.learningObjectives.Null? && !d.motif.Null?
      && d.age.Present? && d.age.value >= 0 && d.sexe.Present?
    ensures r.Ok? ==>
      r.value.caseTitle == ValueOr(d.caseTitle, "Titre manquant")
      && r.value.caseSummary == ValueOr(d.caseSummary, "")
      && r.value.learningObjectives == ValueOr(d.learningObjectives, "")
      && r.value.motif == ValueOr(d.motif, "")
      && r.value.age == d.age.value && r.value.sexe == d.sexe.value
      && r.value.etatCivil == "" && r.value.profession == "" && r.value.nombreEnfant == 0
      && r.value.groupeSanguin == "" && r.value.modeDeVie == JNull && r.value.suggestedCategories.None?
  {
    var title :- TextValue("case_title", Get(d.caseTitle, Some("Titre manquant")));
    var summary :- TextValue("case_summary", Get(d.caseSummary, Some("")));
    var objectives :- TextValue("learning_objectives", Get(d.learningObjectives, Some("")));
    var motif :- TextValue("motif_consultation", Get(d.motif, Some("")));
    var age :- PositiveValue("age", Get(d.age, None));
    var sexe :- TextValue("sexe", Get(d.sexe, None));
    Ok(ClinicalCase(0, sourceId, DefaultStatus, None, title, summary, objectives, motif, age, sexe,
      "", "", 0, "", JNull, {}, None))
  }

  /** The transaction of one record: the case, then its symptoms, then its history entries. */
  function FlatSave(t: CaseTables, sourceId: string, d: FlatCaseDict): Result<CaseTables, SaveError> {
    var record :- FlatRecord(sourceId, d);
    var withCase :- InsertCase(t, record);
    var ss :- SymptomRows(t.nextCaseId, d.symptoms);
    var hs :- HistoryRows(t.nextCaseId, d.historyEntries);
    Ok(AppendRows(withCase, ChildRows(ss, hs, [], [], [], [])))
  }

  /**
   * A committed record keeps the database valid, adds exactly one case, with
   * the record's id as source identifier and the next case id, and appends
   * one symptom row per symptom entry and one history row per history entry,
   * in order, each pointing at the new case; the other tables are unchanged.
   */
  lemma FlatSaveMeaning(t: CaseTables, sourceId: string, d: FlatCaseDict)
    requires Valid(t)
    ensures FlatSave(t, sourceId, d).Ok? ==>
      var t' := FlatSave(t, sourceId, d).value;
      Valid(t') && t'.nextCaseId == t.nextCaseId + 1
      && t'.cases == t.cases + [t'.cases[|t.cases|]]
      && t'.cases[|t.cases|].id == t.nextCaseId && t'.cases[|t.cases|].sourceId == sourceId
      && t'.cases[|t.cases|] == FlatRecord(sourceId, d).value.(id := t.nextCaseId)
      && t'.categories == t.categories
      && t.symptoms <= t'.symptoms && SymptomRowsFor(t.nextCaseId, Entries(d.symptoms), t'.symptoms[|t.symptoms|..])
      && t.history <= t'.history && HistoryRowsFor(t.nextCaseId, Entries(d.historyEntries), t'.history[|t.history|..])
      && t'.treatments == t.treatments && t'.exams == t.exams
      && t'.findings == t.findings && t'.diagnoses == t.diagnoses
  {
    if FlatSave(t, sourceId, d).Ok? {
      var record := FlatRecord(sourceId, d).value;
      InsertCaseValid(t, record);
      var withCase := InsertCase(t, record).value;
      assert withCase.cases[|t.cases|] in withCase.cases;
      var ss := SymptomRows(t.nextCaseId, d.symptoms).value;
      var hs := HistoryRows(t.nextCaseId, d.historyEntries).value;
      AppendRowsValid(withCase, ChildRows(ss, hs, [], [], [], []), t.nextCaseId);
      var t' := AppendRows(withCase, ChildRows(ss, hs, [], [], [], []));
      assert t'.symptoms[|t.symptoms|..] == ss;
      assert t'.history[|t.history|..] == hs;
    }
  }

  /** Missing text fields take the command's defaults. */
  lemma FlatDefaults(sourceId: string, age: nat, sexe: string)
    ensures var r := FlatRecord(sourceId, FlatCaseDict(Missing, Missing, Missing, Missing, Present(age), Present(sexe), Missing, Missing));
      r.Ok? && r.value.caseTitle == "Titre manquant" && r.value.caseSummary == ""
      && r.value.learningObjectives == "" && r.value.motif == "" && r.value.age == age && r.value.sexe == sexe
      && r.value.nombreEnfant == 0 && r.value.modeDeVie == JNull && r.value.suggestedCategories.None?
  {
  }

  /** Without `age` or `sexe` the record cannot be saved. */
  lemma FlatNeedsAgeAndSex(t: CaseTables, sourceId: string, d: FlatCaseDict)
    requires !d.age.Present? || !d.sexe.Present?
    ensures FlatSave(t, sourceId, d).Err?
  {
  }

  // ------------------------------------------------------------ the loop

  /** The tables and the outcomes so far. */
  datatype ImportState = ImportState(tables: CaseTables, outcomes: seq<Outcome>)

  /** One record, given the model's answer for it. */
  function ImportStep(st: ImportState, rec: RawRecord, answer: Option<FlatCaseDict>): ImportState {
    if SkipRecord(st.tables, rec) then st.(outcomes := st.outcomes + [Skipped])
    else if !Structured(answer) then st.(outcomes := st.outcomes + [StructuringFailed])
    else match FlatSave(st.tables, rec.id.value, answer.value)
      case Err(e) => st.(outcomes := st.outcomes + [SaveFailed(e)])
      case Ok(t') => ImportState(t', st.outcomes + [Imported(st.tables.nextCaseId)])
  }

  /** The records processed in order. */
  function ImportRun(t: CaseTables, records: seq<RawRecord>, answers: seq<Option<FlatCaseDict>>): ImportState
    decreases |records|
  {
    if records == [] then ImportState(t, [])
    else
      var n := |records| - 1;
      ImportStep(ImportRun(t, records[..n], answers), records[n], Answer(answers, n))
  }

  /** `handle`: a setup failure stops the command before any record. */
  function HandleSpec(t: CaseTables, apiKeyOk: bool, fetched: FetchResult, answers: seq<Option<FlatCaseDict>>): (CaseTables, Report) {
    if !apiKeyOk then (t, Aborted(ApiKeyInvalid))
    else match fetched
      case FetchAborted(reason) => (t, Aborted(reason))
      case Fetched(records) =>
        var st := ImportRun(t, records, answers);
        (st.tables, Ran(st.outcomes))
  }

  /** The cases of `t` are still the first cases of `t'`. */
  predicate CasesKept(t: CaseTables, t': CaseTables) {
    |t.cases| <= |t'.cases| && t'.cases[..|t.cases|] == t.cases
  }

  lemma CasesKeptTrans(a: CaseTables, b: CaseTables, c: CaseTables)
    requires CasesKept(a, b) && CasesKept(b, c)
    ensures CasesKept(a, c)
  {
    assert c.cases[..|a.cases|] == c.cases[..|b.cases|][..|a.cases|];
  }

  /** A source identifier taken stays taken when cases are only added. */
  lemma TakenStaysTaken(t: CaseTables, t': CaseTables, sourceId: string)
    requires CasesKept(t, t') && SourceIdTaken(t.cases, sourceId)
    ensures SourceIdTaken(t'.cases, sourceId)
  {
    var c :| c in t.cases && c.sourceId == sourceId;
    assert c in t'.cases[..|t.cases|];
  }

  /**
   * One record: it is skipped exactly when its id is empty or already taken;
   * the model's answer matters only when it is not skipped; the tables
   * change only when it is imported, and then it keeps them valid, adds one
   * case after the others and makes its id taken.
   */
  lemma ImportStepMeaning(st: ImportState, rec: RawRecord, answer: Option<FlatCaseDict>)
    requires Valid(st.tables)
    ensures var r := ImportStep(st, rec, answer);
      Valid(r.tables) && CasesKept(st.tables, r.tables)
      && |r.outcomes| == |st.outcomes| + 1 && r.outcomes[..|st.outcomes|] == st.outcomes
      && (r.outcomes[|st.outcomes|] == Skipped <==> SkipRecord(st.tables, rec))
      && (r.outcomes[|st.outcomes|] == StructuringFailed <==> !SkipRecord(st.tables, rec) && !Structured(answer))
      && (SkipRecord(st.tables, rec) ==> r == ImportStep(st, rec, None))
      && (!r.outcomes[|st.outcomes|].Imported? ==> r.tables == st.tables)
      && (r.outcomes[|st.outcomes|].Imported? ==>
            Truthy(rec.id) && r.outcomes[|st.outcomes|].caseId == st.tables.nextCaseId
            && |r.tables.cases| == |st.tables.cases| + 1 && SourceIdTaken(r.tables.cases, rec.id.value))
  {
    var r := ImportStep(st, rec, answer);
    assert r.outcomes[..|st.outcomes|] == st.outcomes;
    if !SkipRecord(st.tables, rec) && Structured(answer) {
      FlatSaveMeaning(st.tables, rec.id.value, answer.value);
      if r.outcomes[|st.outcomes|].Imported? {
        assert r.tables.cases[..|st.tables.cases|] == st.tables.cases;
        assert r.tables.cases[|st.tables.cases|] in r.tables.cases;
      }
    }
  }

  /** A prefix of the records gives a prefix of the outcomes. */
  lemma {:induction false} ImportRunPrefix(t: CaseTables, records: seq<RawRecord>, answers: seq<Option<FlatCaseDict>>, m: nat)
    requires m <= |records|
    ensures |ImportRun(t, records, answers).outcomes| == |records|
    ensures ImportRun(t, records[..m], answers).outcomes == ImportRun(t, records, answers).outcomes[..m]
    decreases |records|
  {
    if records != [] {
      var n := |records| - 1;
      assert records[..n][..n] == records[..n];
      ImportRunPrefix(t, records[..n], answers, n);
      var mid := ImportRun(t, records[..n], answers);
      var r := ImportRun(t, records, answers);
      assert r.outcomes[..|mid.outcomes|] == mid.outcomes;
      if m <= n {
        assert records[..m] == records[..n][..m];
        ImportRunPrefix(t, records[..n], answers, m);
        assert r.outcomes[..m] == mid.outcomes[..m];
      } else {
        assert records[..m] == records;
      }
    }
  }

  /** The outcome of record `k` is the step taken from the tables the earlier records left. */
  lemma OutcomeAt(t: CaseTables, records: seq<RawRecord>, answers: seq<Option<FlatCaseDict>>, k: nat)
    requires k < |records|
    ensures |ImportRun(t, records, answers).outcomes| == |records|
    ensures var before := ImportRun(t, records[..k], answers);
      ImportRun(t, records, answers).outcomes[k]
        == ImportStep(before, records[k], Answer(answers, k)).outcomes[|before.outcomes|]
    ensures |ImportRun(t, records[..k], answers).outcomes| == k
  {
    ImportRunPrefix(t, records, answers, k + 1);
    assert records[..k + 1][..k] == records[..k];
    ImportRunPrefix(t, records[..k], answers, k);
  }

  /** The run over one more record is one more step. */
  lemma ImportRunExtend(t: CaseTables, records: seq<RawRecord>, answers: seq<Option<FlatCaseDict>>, i: nat)
    requires i < |records|
    ensures ImportRun(t, records[..i + 1], answers) == ImportStep(ImportRun(t, records[..i], answers), records[i], Answer(answers, i))
  {
    assert records[..i + 1][..i] == records[..i];
  }

  /** The loop keeps the database valid and never removes or alters a case. */
  lemma {:induction false} ImportRunValid(t: CaseTables, records: seq<RawRecord>, answers: seq<Option<FlatCaseDict>>)
    requires Valid(t)
    ensures Valid(ImportRun(t, records, answers).tables) && CasesKept(t, ImportRun(t, records, answers).tables)
    decreases |records|
  {
    if records != [] {
      var n := |records| - 1;
      ImportRunValid(t, records[..n], answers);
      var mid := ImportRun(t, records[..n], answers);
      ImportStepMeaning(mid, records[n], Answer(answers, n));
      CasesKeptTrans(t, mid.tables, ImportRun(t, records, answers).tables);
    }
  }

  /** Every imported record's id is taken once the loop is over. */
  lemma ImportedIdsTaken(t: CaseTables, records: seq<RawRecord>, answers: seq<Option<FlatCaseDict>>, k: nat)
    requires Valid(t) && k < |records|
    requires OutcomeOf(t, records, answers, k).Imported?
    ensures Truthy(records[k].id) && SourceIdTaken(ImportRun(t, records, answers).tables.cases, records[k].id.value)
  {
    var before := ImportRun(t, records[..k], answers);
    var after := ImportStep(before, records[k], Answer(answers, k));
    assert Truthy(records[k].id) && SourceIdTaken(after.tables.cases, records[k].id.value) by {
      OutcomeAt(t, records, answers, k);
      ImportRunValid(t, records[..k], answers);
      ImportStepMeaning(before, records[k], Answer(answers, k));
    }
    assert ImportRun(t, records[..k + 1], answers) == after by {
      assert records[..k + 1][..k] == records[..k];
      assert records[..k + 1][k] == records[k];
    }
    AfterPrefix(t, records, answers, k + 1);
    TakenStaysTaken(after.tables, ImportRun(t, records, answers).tables, records[k].id.value);
  }

  /** The outcome of record `k`. */
  function OutcomeOf(t: CaseTables, records: seq<RawRecord>, answers: seq<Option<FlatCaseDict>>, k: nat): Outcome
    requires k < |records|
  {
    ImportRunPrefix(t, records, answers, 0);
    ImportRun(t, records, answers).outcomes[k]
  }

  /** The tables after a prefix of the records are kept by the rest of the loop. */
  lemma {:induction false} AfterPrefix(t: CaseTables, records: seq<RawRecord>, answers: seq<Option<FlatCaseDict>>, m: nat)
    requires Valid(t) && m <= |records|
    ensures CasesKept(ImportRun(t, records[..m], answers).tables, ImportRun(t, records, answers).tables)
    decreases |records| - m
  {
    if m < |records| {
      AfterPrefix(t, records, answers, m + 1);
      var mid := ImportRun(t, records[..m], answers);
      assert records[..m + 1][..m] == records[..m];
      ImportRunValid(t, records[..m], answers);
      ImportStepMeaning(mid, records[m], Answer(answers, m));
      CasesKeptTrans(mid.tables, ImportRun(t, records[..m + 1], answers).tables, ImportRun(t, records, answers).tables);
    } else {
      assert records[..m] == records;
    }
  }

  /**
   * Running the command again over the same records skips every record the
   * first run imported, whatever the model answers the second time.
   */
  lemma RerunSkipsImported(t: CaseTables, records: seq<RawRecord>, first: seq<Option<FlatCaseDict>>,
                           second: seq<Option<FlatCaseDict>>, k: nat)
    requires Valid(t) && k < |records|
    requires OutcomeOf(t, records, first, k).Imported?
    ensures OutcomeOf(ImportRun(t, records, first).tables, records, second, k) == Skipped
  {
    var t1 := ImportRun(t, records, first).tables;
    ImportedIdsTaken(t, records, first, k);
    ImportRunValid(t, records, first);
    OutcomeAt(t1, records, second, k);
    ImportRunValid(t1, records[..k], second);
    var before := ImportRun(t1, records[..k], second);
    TakenStaysTaken(t1, before.tables, records[k].id.value);
    ImportStepMeaning(before, records[k], Answer(second, k));
  }

  /** Within one batch, a record whose id an earlier record imported is skipped. */
  lemma DuplicateInBatchSkipped(t: CaseTables, records: seq<RawRecord>, answers: seq<Option<FlatCaseDict>>, i: nat, j: nat)
    requires Valid(t) && i < j < |records| && records[i].id == records[j].id
    requires OutcomeOf(t, records, answers, i).Imported?
    ensures OutcomeOf(t, records, answers, j) == Skipped
  {
    assert records[..j][..i + 1] == records[..i + 1];
    assert i < |records[..j]| && records[..j][i] == records[i];
    OutcomeAt(t, records, answers, i);
    OutcomeAt(t, records[..j], answers, i);
    ImportRunPrefix(t, records, answers, j);
    assert OutcomeOf(t, records[..j], answers, i).Imported?;
    ImportedIdsTaken(t, records[..j], answers, i);
    OutcomeAt(t, records, answers, j);
    ImportRunValid(t, records[..j], answers);
    ImportStepMeaning(ImportRun(t, records[..j], answers), records[j], Answer(answers, j));
  }

  /** The model's answer for a skipped record is never used: replacing it changes nothing. */
  lemma {:induction false} SkippedAnswerUnused(t: CaseTables, records: seq<RawRecord>, answers: seq<Option<FlatCaseDict>>,
                                               k: nat, other: Option<FlatCaseDict>)
    requires Valid(t) && k < |answers|
    requires k >= |records| || OutcomeOf(t, records, answers, k) == Skipped
    ensures ImportRun(t, records, answers[k := other]) == ImportRun(t, records, answers)
    decreases |records|
  {
    if records != [] {
      var n := |records| - 1;
      var a' := answers[k := other];
      SkippedAnswerUnused(t, records[..n], answers, k, other) by {
        if n > k {
          assert OutcomeOf(t, records[..n], answers, k) == Skipped by {
            OutcomeAt(t, records, answers, k);
            OutcomeAt(t, records[..n], answers, k);
            assert records[..n][..k] == records[..k];
          }
        }
      }
      var before := ImportRun(t, records[..n], answers);
      assert ImportRun(t, records, a') == ImportStep(before, records[n], Answer(a', n));
      assert ImportRun(t, records, answers) == ImportStep(before, records[n], Answer(answers, n));
      if n == k {
        assert SkipRecord(before.tables, records[n]) by {
          OutcomeAt(t, records, answers, k);
          ImportRunValid(t, records[..n], answers);
          ImportStepMeaning(before, records[n], Answer(answers, n));
        }
        SkipIgnoresAnswer(before, records[n], Answer(a', n), Answer(answers, n));
      } else {
        assert Answer(a', n) == Answer(answers, n);
      }
    }
  }

  /** A skipped record's answer is never looked at. */
  lemma SkipIgnoresAnswer(st: ImportState, rec: RawRecord, a: Option<FlatCaseDict>, b: Option<FlatCaseDict>)
    requires SkipRecord(st.tables, rec)
    ensures ImportStep(st, rec, a) == ImportStep(st, rec, b)
  {
  }

  /** A setup failure leaves the database as it was and processes no record. */
  lemma SetupFailureChangesNothing(t: CaseTables, apiKeyOk: bool, fetched: FetchResult, answers: seq<Option<FlatCaseDict>>)
    requires !apiKeyOk || fetched.FetchAborted?
    ensures HandleSpec(t, apiKeyOk, fetched, answers).0 == t && HandleSpec(t, apiKeyOk, fetched, answers).1.Aborted?
  {
  }

  // ------------------------------------------------------------ the command

  /** One record's transaction on the database: committed on success, discarded on failure. */
  method SaveFlatCase(db: CaseDatabase, sourceId: string, d: FlatCaseDict) returns (r: Result<nat, SaveError>)
    requires Valid(db.tables)
    modifies db
    ensures Valid(db.tables)
    ensures var spec := FlatSave(old(db.tables), sourceId, d);
      (spec.Ok? ==> r == Ok(old(db.tables).nextCaseId) && db.tables == spec.value)
      && (spec.Err? ==> r == Err(spec.error) && db.tables == old(db.tables))
  {
    FlatSaveMeaning(db.tables, sourceId, d);
    var t := db.tables;
    var record := FlatRecord(sourceId, d);
    if record.Err? { return Err(record.error); }
    var staged := InsertCase(t, record.value);
    if staged.Err? { return Err(staged.error); }
    var ss := List("symptoms", d.symptoms);
    if ss.Err? { return Err(ss.error); }
    var caseId := t.nextCaseId;
    var sr := CreateRows(ss.value, x => SymptomRow(caseId, x));
    if sr.Err? { return Err(sr.error); }
    var hs := List("history_entries", d.historyEntries);
    if hs.Err? { return Err(hs.error); }
    var hr := CreateRows(hs.value, x => HistoryRow(caseId, x));
    if hr.Err? { return Err(hr.error); }
    db.tables := AppendRows(staged.value, ChildRows(sr.value, hr.value, [], [], [], []));
    r := Ok(caseId);
  }

  /** `Command.handle`. */
  method Handle(db: CaseDatabase, apiKeyOk: bool, fetched: FetchResult, answers: seq<Option<FlatCaseDict>>) returns (report: Report)
    requires Valid(db.tables)
    modifies db
    ensures Valid(db.tables)
    ensures (db.tables, report) == HandleSpec(old(db.tables), apiKeyOk, fetched, answers)
  {
    if !apiKeyOk {
      return Aborted(ApiKeyInvalid);
    }
    if fetched.FetchAborted? {
      return Aborted(fetched.reason);
    }
    var records := fetched.records;
    ghost var t0 := db.tables;
    var outcomes: seq<Outcome> := [];
    var i := 0;
    while i < |records|
      invariant 0 <= i <= |records|
      invariant Valid(db.tables)
      invariant ImportState(db.tables, outcomes) == ImportRun(t0, records[..i], answers)
    {
      ImportRunExtend(t0, records, answers, i);
      ghost var st := ImportState(db.tables, outcomes);
      var rec := records[i];
      if !Truthy(rec.id) || SourceIdTaken(db.tables.cases, rec.id.value) {
        outcomes := outcomes + [Skipped];
      } else {
        var answer := Answer(answers, i);
        if !Structured(answer) {
          outcomes := outcomes + [StructuringFailed];
        } else {
          var saved := SaveFlatCase(db, rec.id.value, answer.value);
          if saved.Ok? {
            outcomes := outcomes + [Imported(saved.value)];
          } else {
            outcomes := outcomes + [SaveFailed(saved.error)];
          }
        }
      }
      assert ImportState(db.tables, outcomes) == ImportStep(st, rec, Answer(answers, i));
      i := i + 1;
    }
    assert records[..i] == records;
    report := Ran(outcomes);
  }
}
