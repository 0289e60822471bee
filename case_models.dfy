/**
 * The clinical-case tables (backend/cases/models.py): the case record with
 * its review status, the six kinds of rows attached to a case, the category
 * table the importer fills, and the rules the database enforces on them
 * (unique source identifiers, NOT NULL columns, non-negative integer
 * columns, cascading deletes). The read-only case endpoint
 * (backend/cases/views.py) only shows approved cases.
 *
 * Rows are kept in insertion order; a table is a sequence.
 */
module CaseModels {
  import opened Wrappers
  import opened Strings
  import opened Json

  // ------------------------------------------------------------ case status

  datatype CaseStatus = NonApprouve | Approuve | Rejete

  /** The stored value of a status. */
  function StatusValue(s: CaseStatus): string {
    match s
    case NonApprouve => "non_approuve"
    case Approuve => "approuve"
    case Rejete => "rejete"
  }

  /** The human-readable label of a status. */
  function StatusLabel(s: CaseStatus): string {
    match s
    case NonApprouve => "Non Approuvé"
    case Approuve => "Approuvé"
    case Rejete => "Rejeté"
  }

  /** The status a stored value stands for; `None` for a value outside the choices. */
  function ParseStatus(v: string): (r: Option<CaseStatus>)
    ensures r.Some? ==> StatusValue(r.value) == v
  {
    if v == "non_approuve" then Some(NonApprouve)
    else if v == "approuve" then Some(Approuve)
    else if v == "rejete" then Some(Rejete)
    else None
  }

  /** Status values and statuses correspond one to one. */
  lemma StatusRoundTrip(s: CaseStatus, v: string)
    ensures ParseStatus(StatusValue(s)) == Some(s)
    ensures ParseStatus(v).None? <==> v !in {"non_approuve", "approuve", "rejete"}
  {
  }

  /** A new case awaits review. */
  const DefaultStatus: CaseStatus := NonApprouve

  // ---------------------------------------------------------- history types

  datatype HistoryType = Medical | Chirurgical | Obstetrical | Familial | Allergie

  function HistoryTypeValue(t: HistoryType): string {
    match t
    case Medical => "medical"
    case Chirurgical => "chirurgical"
    case Obstetrical => "obstetrical"
    case Familial => "familial"
    case Allergie => "allergie"
  }

  function HistoryTypeLabel(t: HistoryType): string {
    match t
    case Medical => "Médical"
    case Chirurgical => "Chirurgical"
    case Obstetrical => "Obstétrical"
    case Familial => "Familial"
    case Allergie => "Allergie"
  }

  function ParseHistoryType(v: string): (r: Option<HistoryType>)
    ensures r.Some? ==> HistoryTypeValue(r.value) == v
  {
    if v == "medical" then Some(Medical)
    else if v == "chirurgical" then Some(Chirurgical)
    else if v == "obstetrical" then Some(Obstetrical)
    else if v == "familial" then Some(Familial)
    else if v == "allergie" then Some(Allergie)
    else None
  }

  /**
   * `get_type_display()`: the label of a stored type, or the stored value
   * itself when it is not one of the choices (the choices are not enforced
   * when a row is created).
   */
  function HistoryTypeDisplay(raw: string): string {
    match ParseHistoryType(raw)
    case Some(t) => HistoryTypeLabel(t)
    case None => raw
  }

  /** Each history type has its own value and label; a value outside the choices is displayed as it is. */
  lemma HistoryTypeDisplayMeaning(t: HistoryType, u: HistoryType, raw: string)
    ensures ParseHistoryType(HistoryTypeValue(t)) == Some(t)
    ensures HistoryTypeDisplay(HistoryTypeValue(t)) == HistoryTypeLabel(t)
    ensures t != u ==> HistoryTypeValue(t) != HistoryTypeValue(u) && HistoryTypeLabel(t) != HistoryTypeLabel(u)
    ensures raw !in {"medical", "chirurgical", "obstetrical", "familial", "allergie"} ==> HistoryTypeDisplay(raw) == raw
  {
  }

  // ---------------------------------------------------------------- records

  /**
   * A clinical case. `categories` holds the ids of the assigned categories
   * and `suggestedCategories` the category names the language model
   * suggested, as received (absent when the case was not imported with
   * suggestions). `modeDeVie` is `JNull` for SQL NULL.
   */
  datatype ClinicalCase = ClinicalCase(
    id: nat, sourceId: string, status: CaseStatus, validatedBy: Option<nat>,
    caseTitle: string, caseSummary: string, learningObjectives: string,
    motif: string, age: nat, sexe: string, etatCivil: string, profession: string,
    nombreEnfant: nat, groupeSanguin: string, modeDeVie: JsonValue,
    categories: set<nat>, suggestedCategories: Option<seq<string>>)

  datatype Symptom = Symptom(
    caseId: nat, nom: string, localisation: string, dateDebut: string, frequence: string,
    duree: string, evolution: string, activiteDeclenchante: string, degre: nat)

  /** `typ` is the stored type value, which need not be one of the choices. */
  datatype MedicalHistory = MedicalHistory(caseId: nat, typ: string, description: string)

  datatype CurrentTreatment = CurrentTreatment(caseId: nat, nom: string, posologie: string, dateDebut: string, efficacite: string)

  datatype ComplementaryExam = ComplementaryExam(caseId: nat, nom: string, resultat: string)

  datatype PhysicalFinding = PhysicalFinding(caseId: nat, nomExamen: string, resultatObservation: string)

  datatype Diagnosis = Diagnosis(caseId: nat, description: string, isFinal: bool)

  datatype Category = Category(id: nat, name: string)

  const FinalMarker: string := "[Final] "

  /** `Diagnosis.__str__`: the final marker when final, the description, then the case reference. */
  function DiagnosisToString(d: Diagnosis): string {
    (if d.isFinal then FinalMarker else "") + d.description + " (Cas #" + IntToDecimal(d.caseId) + ")"
  }

  /**
   * A final diagnosis is marked; an unmarked one is displayed as its bare
   * description. The mark tells the two apart whenever the description does
   * not itself begin with a bracket (a description "[Final]" reads as marked).
   */
  lemma DiagnosisMarksFinal(d: Diagnosis)
    ensures d.isFinal ==> StartsWith(DiagnosisToString(d), FinalMarker)
    ensures !d.isFinal ==> StartsWith(DiagnosisToString(d), d.description)
    ensures (d.description == "" || d.description[0] != '[') ==> (StartsWith(DiagnosisToString(d), FinalMarker) <==> d.isFinal)
    ensures EndsWith(DiagnosisToString(d), " (Cas #" + IntToDecimal(d.caseId) + ")")
  {
    var s := DiagnosisToString(d);
    var head := (if d.isFinal then FinalMarker else "") + d.description;
    var tail := " (Cas #" + IntToDecimal(d.caseId) + ")";
    ConcatRegroup(head, " (Cas #", IntToDecimal(d.caseId), ")");
    assert s == head + tail;
    ConcatStartsEnds(head, tail);
    if d.isFinal {
      ConcatStartsEnds(FinalMarker, d.description);
      StartsWithTrans(s, head, FinalMarker);
    } else {
      assert s[0] == if d.description == "" then ' ' else d.description[0];
    }
  }


  // ------------------------------------------------------- column semantics

  /** What makes a database write fail. */
  datatype SaveError =
    | IntegrityError(column: string)       // NULL in a NOT NULL column, a negative unsigned value, a duplicate unique value
    | AttributeError(what: string)         // `.get` on a value that is `None`
    | TypeError(what: string)              // iterating over `None`

  /** A NOT NULL text column given a value that may be `None`. */
  function TextValue(column: string, v: Option<string>): Result<string, SaveError> {
    if v.Some? then Ok(v.value) else Err(IntegrityError(column))
  }

  /** A NOT NULL text column filled from a keyword that may be absent: an absent keyword stores "". */
  function TextColumn(column: string, f: Field<string>): (r: Result<string, SaveError>)
    ensures r.Ok? <==> !f.Null?
    ensures r.Ok? ==> r.value == (if f.Present? then f.value else "")
  {
    TextValue(column, Get(f, Some("")))
  }

  /** A NOT NULL unsigned integer column: `None` and negative values are refused. */
  function PositiveValue(column: string, v: Option<int>): (r: Result<nat, SaveError>)
    ensures r.Ok? <==> v.Some? && v.value >= 0
    ensures r.Ok? ==> r.value == v.value
  {
    if v.Some? && v.value >= 0 then Ok(v.value) else Err(IntegrityError(column))
  }

  /** A NOT NULL boolean column with a default, filled from a keyword that may be absent. */
  function BoolColumn(column: string, f: Field<bool>, default: bool): (r: Result<bool, SaveError>)
    ensures r.Ok? <==> !f.Null?
    ensures r.Ok? ==> r.value == (if f.Present? then f.value else default)
  {
    match Get(f, Some(default))
    case Some(b) => Ok(b)
    case None => Err(IntegrityError(column))
  }

  // ----------------------------------------------------------------- tables

  /** `filter`: the elements that pass, in their order. */
  function Filter<T>(s: seq<T>, keep: T -> bool): (r: seq<T>)
    ensures |r| <= |s|
    ensures forall k :: 0 <= k < |r| ==> r[k] in s && keep(r[k])
    ensures forall k :: 0 <= k < |s| && keep(s[k]) ==> s[k] in r
    decreases |s|
  {
    if s == [] then []
    else (if keep(s[0]) then [s[0]] else []) + Filter(s[1..], keep)
  }

  /** No two elements share a key. */
  predicate DistinctBy<T, K(==)>(s: seq<T>, key: T -> K) {
    forall i, j :: 0 <= i < j < |s| ==> key(s[i]) != key(s[j])
  }

  /** Filtering keeps distinct keys distinct. */
  lemma {:induction false} FilterDistinct<T, K>(s: seq<T>, keep: T -> bool, key: T -> K)
    requires DistinctBy(s, key)
    ensures DistinctBy(Filter(s, keep), key)
    decreases |s|
  {
    if s != [] {
      FilterDistinct(s[1..], keep, key);
      var rest := Filter(s[1..], keep);
      if keep(s[0]) {
        var r := [s[0]] + rest;
        forall i, j | 0 <= i < j < |r| ensures key(r[i]) != key(r[j]) {
          if i == 0 {
            assert r[j] in s[1..];
            var k :| 0 <= k < |s[1..]| && s[1..][k] == r[j];
            assert s[k + 1] == r[j];
          } else {
            assert r[i] == rest[i - 1] && r[j] == rest[j - 1];
          }
        }
      }
    }
  }

  /**
   * The case database: the case table, the category table, the six child
   * tables, and the next primary keys to hand out.
   */
  datatype CaseTables = CaseTables(
    cases: seq<ClinicalCase>, nextCaseId: nat,
    categories: seq<Category>, nextCategoryId: nat,
    symptoms: seq<Symptom>, history: seq<MedicalHistory>, treatments: seq<CurrentTreatment>,
    exams: seq<ComplementaryExam>, findings: seq<PhysicalFinding>, diagnoses: seq<Diagnosis>)

  const EmptyTables: CaseTables := CaseTables([], 1, [], 1, [], [], [], [], [], [])

  function CaseIds(t: CaseTables): set<nat> {
    set c | c in t.cases :: c.id
  }

  function CategoryIds(cats: seq<Category>): set<nat> {
    set c | c in cats :: c.id
  }

  /** Whether some case already has this source identifier. */
  predicate SourceIdTaken(cases: seq<ClinicalCase>, sourceId: string) {
    exists c :: c in cases && c.sourceId == sourceId
  }

  /** No two categories have names equal up to case. */
  predicate CategoryNamesDistinct(cats: seq<Category>) {
    forall i, j :: 0 <= i < j < |cats| ==> !EqualsIgnoreCase(cats[i].name, cats[j].name)
  }

  /** The category table's own rules: keys below the next key, distinct keys, distinct names up to case. */
  predicate CategoriesValid(cats: seq<Category>, nextId: nat) {
    (forall c :: c in cats ==> c.id < nextId)
    && DistinctBy(cats, (c: Category) => c.id)
    && CategoryNamesDistinct(cats)
  }

  /** Every child row points at an existing case. */
  predicate ChildrenLinked(t: CaseTables) {
    var ids := CaseIds(t);
    (forall r :: r in t.symptoms ==> r.caseId in ids)
    && (forall r :: r in t.history ==> r.caseId in ids)
    && (forall r :: r in t.treatments ==> r.caseId in ids)
    && (forall r :: r in t.exams ==> r.caseId in ids)
    && (forall r :: r in t.findings ==> r.caseId in ids)
    && (forall r :: r in t.diagnoses ==> r.caseId in ids)
  }

  /** The database invariant: primary keys, the unique source identifier, foreign keys. */
  predicate Valid(t: CaseTables) {
    (forall c :: c in t.cases ==> c.id < t.nextCaseId)
    && DistinctBy(t.cases, (c: ClinicalCase) => c.id)
    && DistinctBy(t.cases, (c: ClinicalCase) => c.sourceId)
    && CategoriesValid(t.categories, t.nextCategoryId)
    && (forall c :: c in t.cases ==> c.categories <= CategoryIds(t.categories))
    && ChildrenLinked(t)
  }

  lemma EmptyTablesValid()
    ensures Valid(EmptyTables)
  {
  }

  /**
   * `ClinicalCase.objects.create(...)`: the row gets the next primary key;
   * a source identifier already in the table violates the unique constraint.
   */
  function InsertCase(t: CaseTables, c: ClinicalCase): (r: Result<CaseTables, SaveError>)
    ensures r.Err? <==> SourceIdTaken(t.cases, c.sourceId)
    ensures r.Ok? ==> r.value == t.(cases := t.cases + [c.(id := t.nextCaseId)], nextCaseId := t.nextCaseId + 1)
  {
    if SourceIdTaken(t.cases, c.sourceId) then Err(IntegrityError("source_fultang_id"))
    else Ok(t.(cases := t.cases + [c.(id := t.nextCaseId)], nextCaseId := t.nextCaseId + 1))
  }

  /** Inserting a case keeps the database valid when its categories exist. */
  lemma InsertCaseValid(t: CaseTables, c: ClinicalCase)
    requires Valid(t) && c.categories <= CategoryIds(t.categories)
    ensures InsertCase(t, c).Ok? ==> Valid(InsertCase(t, c).value)
  {
    if InsertCase(t, c).Ok? {
      var t' := InsertCase(t, c).value;
      var n := c.(id := t.nextCaseId);
      assert forall k :: 0 <= k < |t.cases| ==> t'.cases[k] == t.cases[k];
      assert t'.cases[|t.cases|] == n;
      forall i, j | 0 <= i < j < |t'.cases|
        ensures t'.cases[i].id != t'.cases[j].id && t'.cases[i].sourceId != t'.cases[j].sourceId
      {
        if j == |t.cases| {
          assert t.cases[i] in t.cases;
        }
      }
      assert CaseIds(t) <= CaseIds(t') by {
        forall x | x in CaseIds(t) ensures x in CaseIds(t') {
          var w :| w in t.cases && w.id == x;
          assert w in t'.cases;
        }
      }
    }
  }

  // ------------------------------------------------------- cascade deletion

  /**
   * Deleting a case: every symptom, history entry, treatment, exam, finding
   * and diagnosis of that case goes with it (all six foreign keys cascade).
   */
  function DeleteCase(t: CaseTables, id: nat): CaseTables {
    t.(cases := Filter(t.cases, (c: ClinicalCase) => c.id != id),
       symptoms := Filter(t.symptoms, (r: Symptom) => r.caseId != id),
       history := Filter(t.history, (r: MedicalHistory) => r.caseId != id),
       treatments := Filter(t.treatments, (r: CurrentTreatment) => r.caseId != id),
       exams := Filter(t.exams, (r: ComplementaryExam) => r.caseId != id),
       findings := Filter(t.findings, (r: PhysicalFinding) => r.caseId != id),
       diagnoses := Filter(t.diagnoses, (r: Diagnosis) => r.caseId != id))
  }

  /**
   * After a delete no row refers to the case, every row of another case is
   * still there, and the database is still valid.
   */
  lemma CascadeDelete(t: CaseTables, id: nat)
    requires Valid(t)
    ensures var t' := DeleteCase(t, id);
      Valid(t') && id !in CaseIds(t')
      && (forall c :: c in t.cases && c.id != id ==> c in t'.cases)
      && (forall r :: r in t'.symptoms ==> r.caseId != id) && (forall r :: r in t.symptoms && r.caseId != id ==> r in t'.symptoms)
      && (forall r :: r in t'.history ==> r.caseId != id) && (forall r :: r in t.history && r.caseId != id ==> r in t'.history)
      && (forall r :: r in t'.treatments ==> r.caseId != id) && (forall r :: r in t.treatments && r.caseId != id ==> r in t'.treatments)
      && (forall r :: r in t'.exams ==> r.caseId != id) && (forall r :: r in t.exams && r.caseId != id ==> r in t'.exams)
      && (forall r :: r in t'.findings ==> r.caseId != id) && (forall r :: r in t.findings && r.caseId != id ==> r in t'.findings)
      && (forall r :: r in t'.diagnoses ==> r.caseId != id) && (forall r :: r in t.diagnoses && r.caseId != id ==> r in t'.diagnoses)
  {
    var t' := DeleteCase(t, id);
    FilterDistinct(t.cases, (c: ClinicalCase) => c.id != id, (c: ClinicalCase) => c.id);
    FilterDistinct(t.cases, (c: ClinicalCase) => c.id != id, (c: ClinicalCase) => c.sourceId);
    assert forall x :: x in CaseIds(t) && x != id ==> x in CaseIds(t') by {
      forall x | x in CaseIds(t) && x != id ensures x in CaseIds(t') {
        var w :| w in t.cases && w.id == x;
        assert w in t'.cases;
      }
    }
  }

  // ------------------------------------------------------------- visibility

  /** The cases the read-only case endpoint shows: the approved ones, in table order. */
  function VisibleCases(t: CaseTables): seq<ClinicalCase> {
    Filter(t.cases, (c: ClinicalCase) => c.status == Approuve)
  }

  /** A case is visible exactly when it is stored and approved. */
  lemma VisibleIffApproved(t: CaseTables, c: ClinicalCase)
    ensures c in VisibleCases(t) <==> c in t.cases && c.status == Approuve
  {
  }

  // --------------------------------------------------------- related rows

  /** A case's related rows, in table order (the related managers have no ordering). */
  function SymptomsOf(t: CaseTables, id: nat): seq<Symptom> {
    Filter(t.symptoms, (r: Symptom) => r.caseId == id)
  }

  function HistoryOf(t: CaseTables, id: nat): seq<MedicalHistory> {
    Filter(t.history, (r: MedicalHistory) => r.caseId == id)
  }

  function ExamsOf(t: CaseTables, id: nat): seq<ComplementaryExam> {
    Filter(t.exams, (r: ComplementaryExam) => r.caseId == id)
  }

  function FindingsOf(t: CaseTables, id: nat): seq<PhysicalFinding> {
    Filter(t.findings, (r: PhysicalFinding) => r.caseId == id)
  }

  function DiagnosesOf(t: CaseTables, id: nat): seq<Diagnosis> {
    Filter(t.diagnoses, (r: Diagnosis) => r.caseId == id)
  }

  /** The names of symptom rows, in order. */
  function SymptomNames(ss: seq<Symptom>): seq<string> {
    seq(|ss|, k requires 0 <= k < |ss| => ss[k].nom)
  }

  /** The descriptions of history rows, in order. */
  function HistoryDescriptions(hs: seq<MedicalHistory>): seq<string> {
    seq(|hs|, k requires 0 <= k < |hs| => hs[k].description)
  }

  /** The descriptions of diagnosis rows, in order. */
  function DiagnosisDescriptions(ds: seq<Diagnosis>): seq<string> {
    seq(|ds|, k requires 0 <= k < |ds| => ds[k].description)
  }
}
