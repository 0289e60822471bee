/**
 * Saving a structured case (backend/cases/services/case_importer.py,
 * `save_structured_data_to_db`): normalise the suggested category names and
 * find or create each category, create the case with defaults for every
 * missing field, then create one row per entry of each clinical list. The
 * whole save is one transaction: on any failure nothing is written.
 *
 * The specification is a function of the tables before the save
 * (`SaveSpec`); the database class performs the same steps one by one on a
 * staged copy of its tables and commits them at the end.
 */
module CaseImporter {
  import opened Wrappers
  import opened Strings
  import opened Json
  import opened CaseModels
  import opened CaseSchemas

  // ------------------------------------------------ category normalisation

  /** The first category whose name equals `name` up to case (`name__iexact`). */
  function FindIgnoreCase(cats: seq<Category>, name: string): (r: Option<nat>)
    ensures r.Some? ==> r.value < |cats| && EqualsIgnoreCase(cats[r.value].name, name)
    ensures r.Some? ==> forall k :: 0 <= k < r.value ==> !EqualsIgnoreCase(cats[k].name, name)
    ensures r.None? <==> forall k :: 0 <= k < |cats| ==> !EqualsIgnoreCase(cats[k].name, name)
    decreases |cats|
  {
    if cats == [] then None
    else if EqualsIgnoreCase(cats[0].name, name) then Some(0)
    else match FindIgnoreCase(cats[1..], name)
      case None => None
      case Some(k) => Some(k + 1)
  }

  /**
   * The category table while the suggested names are processed, the ids
   * chosen for the case so far and the names of the categories created.
   */
  datatype CategoryState = CategoryState(cats: seq<Category>, nextId: nat, chosen: seq<nat>, created: seq<string>)

  /**
   * One suggested name: stripped; skipped when blank; otherwise the category
   * with that name up to case is reused, or a category with the stripped
   * name is created. Either way its id is chosen for the case.
   */
  function CategoryStep(st: CategoryState, raw: string): CategoryState {
    var clean := Strip(raw);
    if clean == "" then st
    else match FindIgnoreCase(st.cats, clean)
      case Some(k) => st.(chosen := st.chosen + [st.cats[k].id])
      case None =>
        CategoryState(st.cats + [Category(st.nextId, clean)], st.nextId + 1, st.chosen + [st.nextId], st.created + [clean])
  }

  /** The names processed in order. */
  function AssignCategories(st: CategoryState, names: seq<string>): CategoryState
    decreases |names|
  {
    if names == [] then st
    else CategoryStep(AssignCategories(st, names[..|names| - 1]), names[|names| - 1])
  }

  /** How many names are not blank once stripped. */
  function NonBlankCount(names: seq<string>): nat
    decreases |names|
  {
    if names == [] then 0
    else NonBlankCount(names[..|names| - 1]) + (if Strip(names[|names| - 1]) == "" then 0 else 1)
  }

  /** Categories created from a list of names, with consecutive ids from `first`. */
  function NewCategories(first: nat, names: seq<string>): seq<Category> {
    seq(|names|, k requires 0 <= k < |names| => Category(first + k, names[k]))
  }

  /** Some category with this id has this name up to case. */
  predicate NamesCategory(cats: seq<Category>, id: nat, name: string) {
    exists k :: 0 <= k < |cats| && cats[k].id == id && EqualsIgnoreCase(cats[k].name, name)
  }

  /** The table is valid and the chosen ids name existing categories. */
  predicate CategoryStateValid(st: CategoryState) {
    CategoriesValid(st.cats, st.nextId) && forall id :: id in st.chosen ==> id in CategoryIds(st.cats)
  }

  /**
   * One name: a blank name changes nothing; otherwise exactly one id is
   * chosen, and it names a category equal to the stripped name up to case;
   * a category (with the stripped name, reported as created) is added
   * exactly when none had that name up to case.
   */
  lemma CategoryStepMeaning(st: CategoryState, raw: string)
    ensures var r := CategoryStep(st, raw);
      (Strip(raw) == "" ==> r == st)
      && (Strip(raw) != "" ==>
            |r.chosen| == |st.chosen| + 1 && r.chosen[..|st.chosen|] == st.chosen
            && NamesCategory(r.cats, r.chosen[|st.chosen|], Strip(raw)))
      && (r.created != st.created <==> Strip(raw) != "" && FindIgnoreCase(st.cats, Strip(raw)).None?)
      && (r.created != st.created ==>
            r.created == st.created + [Strip(raw)] && r.cats == st.cats + [Category(st.nextId, Strip(raw))]
            && r.nextId == st.nextId + 1)
      && (r.created == st.created ==> r.cats == st.cats && r.nextId == st.nextId)
  {
    var clean := Strip(raw);
    var r := CategoryStep(st, raw);
    if clean != "" {
      match FindIgnoreCase(st.cats, clean)
      case Some(k) =>
        assert r.chosen[|st.chosen|] == st.cats[k].id;
      case None =>
        assert r.cats[|st.cats|] == Category(st.nextId, clean);
        assert r.created != st.created by {
          assert |r.created| == |st.created| + 1;
        }
    }
  }

  /** One name keeps the table valid and the chosen ids existing. */
  lemma CategoryStepValid(st: CategoryState, raw: string)
    requires CategoryStateValid(st)
    ensures CategoryStateValid(CategoryStep(st, raw))
  {
    var clean := Strip(raw);
    if clean != "" {
      match FindIgnoreCase(st.cats, clean)
      case Some(k) =>
        assert st.cats[k] in st.cats;
      case None =>
        AddCategoryValid(st.cats, st.nextId, clean);
    }
  }

  /** Adding a category whose name no category has up to case, with the next id, keeps the table valid. */
  lemma AddCategoryValid(cats: seq<Category>, nextId: nat, name: string)
    requires CategoriesValid(cats, nextId)
    requires forall k :: 0 <= k < |cats| ==> !EqualsIgnoreCase(cats[k].name, name)
    ensures CategoriesValid(cats + [Category(nextId, name)], nextId + 1)
    ensures CategoryIds(cats + [Category(nextId, name)]) == CategoryIds(cats) + {nextId}
  {
    var c := Category(nextId, name);
    var r := cats + [c];
    forall i, j | 0 <= i < j < |r|
      ensures r[i].id != r[j].id && !EqualsIgnoreCase(r[i].name, r[j].name)
    {
      assert r[i] == cats[i];
      if j == |cats| {
        assert cats[i] in cats;
      } else {
        assert r[j] == cats[j];
      }
    }
    forall x | x in CategoryIds(cats) ensures x in CategoryIds(r) {
      var w :| w in cats && w.id == x;
      assert w in r;
    }
    assert c in r;
  }

  /** All the names keep the table valid and the chosen ids existing. */
  lemma {:induction false} AssignCategoriesValid(st: CategoryState, names: seq<string>)
    requires CategoryStateValid(st)
    ensures CategoryStateValid(AssignCategories(st, names))
    decreases |names|
  {
    if names != [] {
      AssignCategoriesValid(st, names[..|names| - 1]);
      CategoryStepValid(AssignCategories(st, names[..|names| - 1]), names[|names| - 1]);
    }
  }

  /**
   * `r` continues `st`: the categories, created names and chosen ids of `st`
   * are kept as they were, and every category added after them is one of the
   * created names, in creation order, with consecutive ids from `st.nextId`.
   */
  predicate Extends(st: CategoryState, r: CategoryState) {
    |st.created| <= |r.created| && r.created[..|st.created|] == st.created
    && r.cats == st.cats + NewCategories(st.nextId, r.created[|st.created|..])
    && r.nextId == st.nextId + (|r.created| - |st.created|)
    && |st.chosen| <= |r.chosen| && r.chosen[..|st.chosen|] == st.chosen
  }

  lemma NewCategoriesAppend(first: nat, xs: seq<string>, ys: seq<string>)
    ensures NewCategories(first, xs + ys) == NewCategories(first, xs) + NewCategories(first + |xs|, ys)
  {
  }

  /** A prefix of a prefix is a prefix, and what follows it is what followed each step. */
  lemma PrefixTrans<T>(x: seq<T>, y: seq<T>, z: seq<T>)
    requires |x| <= |y| && y[..|x|] == x && |y| <= |z| && z[..|y|] == y
    ensures |x| <= |z| && z[..|x|] == x && z[|x|..] == y[|x|..] + z[|y|..]
  {
    assert z[..|x|] == z[..|y|][..|x|];
    assert z[|x|..] == z[|x|..|y|] + z[|y|..];
    assert z[|x|..|y|] == z[..|y|][|x|..];
  }

  /** Continuing a continuation is a continuation. */
  lemma ExtendsTrans(a: CategoryState, b: CategoryState, c: CategoryState)
    requires Extends(a, b) && Extends(b, c)
    ensures Extends(a, c)
  {
    var xs := b.created[|a.created|..];
    var ys := c.created[|b.created|..];
    PrefixTrans(a.created, b.created, c.created);
    PrefixTrans(a.chosen, b.chosen, c.chosen);
    CatsTrans(a.cats, b.cats, c.cats, a.nextId, xs, ys);
  }

  /** Categories created in two rounds are those created from both rounds' names. */
  lemma CatsTrans(ac: seq<Category>, bc: seq<Category>, cc: seq<Category>, first: nat, xs: seq<string>, ys: seq<string>)
    requires bc == ac + NewCategories(first, xs) && cc == bc + NewCategories(first + |xs|, ys)
    ensures cc == ac + NewCategories(first, xs + ys)
  {
    NewCategoriesAppend(first, xs, ys);
    assert cc == ac + (NewCategories(first, xs) + NewCategories(first + |xs|, ys));
  }

  /** One name continues the state. */
  lemma StepExtends(st: CategoryState, raw: string)
    ensures Extends(st, CategoryStep(st, raw))
  {
    var clean := Strip(raw);
    if clean == "" {
      ExtendsByAppend(st, CategoryStep(st, raw), [], []);
    } else {
      match FindIgnoreCase(st.cats, clean)
      case Some(k) =>
        ExtendsByAppend(st, CategoryStep(st, raw), [], [st.cats[k].id]);
      case None =>
        assert NewCategories(st.nextId, [clean]) == [Category(st.nextId, clean)];
        ExtendsByAppend(st, CategoryStep(st, raw), [clean], [st.nextId]);
    }
  }

  /** A state that only appends created names, their categories and chosen ids continues the old one. */
  lemma ExtendsByAppend(st: CategoryState, r: CategoryState, names: seq<string>, ids: seq<nat>)
    requires r.created == st.created + names && r.cats == st.cats + NewCategories(st.nextId, names)
    requires r.nextId == st.nextId + |names| && r.chosen == st.chosen + ids
    ensures Extends(st, r)
  {
    assert r.created[..|st.created|] == st.created;
    assert r.created[|st.created|..] == names;
    assert r.chosen[..|st.chosen|] == st.chosen;
  }

  /**
   * All the names: the existing categories are kept in place and followed by
   * one new category per created name, in creation order with consecutive
   * ids; the chosen ids so far are kept.
   */
  lemma {:induction false} AssignCategoriesExtends(st: CategoryState, names: seq<string>)
    ensures Extends(st, AssignCategories(st, names))
    decreases |names|
  {
    if names == [] {
      assert st.created[|st.created|..] == [];
    } else {
      var init := names[..|names| - 1];
      AssignCategoriesExtends(st, init);
      StepExtends(AssignCategories(st, init), names[|names| - 1]);
      ExtendsTrans(st, AssignCategories(st, init), AssignCategories(st, names));
    }
  }

  /** One id is chosen per non-blank name. */
  lemma {:induction false} AssignCategoriesChooses(st: CategoryState, names: seq<string>)
    ensures |AssignCategories(st, names).chosen| == |st.chosen| + NonBlankCount(names)
    decreases |names|
  {
    if names != [] {
      AssignCategoriesChooses(st, names[..|names| - 1]);
      CategoryStepMeaning(AssignCategories(st, names[..|names| - 1]), names[|names| - 1]);
    }
  }

  /** Equality up to case is transitive. */
  lemma EqualsIgnoreCaseTrans(a: string, b: string, c: string)
    requires EqualsIgnoreCase(a, b) && EqualsIgnoreCase(b, c)
    ensures EqualsIgnoreCase(a, c)
  {
  }

  /**
   * A name repeated later, up to case and surrounding spaces, creates no
   * second category and is given the same category as the first time.
   */
  lemma RepeatedNameReusesCategory(st: CategoryState, a: string, b: string)
    requires CategoryStateValid(st)
    requires Strip(a) != "" && EqualsIgnoreCase(Strip(a), Strip(b))
    ensures var s1 := CategoryStep(st, a); var s2 := CategoryStep(s1, b);
      s2.cats == s1.cats && s2.created == s1.created && s2.chosen == s1.chosen + [s1.chosen[|s1.chosen| - 1]]
  {
    var s1 := CategoryStep(st, a);
    CategoryStepMeaning(st, a);
    CategoryStepValid(st, a);
    var id := s1.chosen[|st.chosen|];
    var k :| 0 <= k < |s1.cats| && s1.cats[k].id == id && EqualsIgnoreCase(s1.cats[k].name, Strip(a));
    EqualsIgnoreCaseTrans(s1.cats[k].name, Strip(a), Strip(b));
    assert Strip(b) != "" by {
      assert |Lower(Strip(b))| == |Lower(Strip(a))|;
    }
    var found := FindIgnoreCase(s1.cats, Strip(b));
    assert found.Some?;
    var j := found.value;
    if j != k {
      EqualsIgnoreCaseTrans(s1.cats[j].name, Strip(b), s1.cats[k].name);
      assert false;
    }
  }

  // ----------------------------------------------------------- the case row

  /** `.get(key, {})` on a nested dictionary: `{}` when absent; a `null` fails at its first `.get`. */
  function Dict<D>(what: string, f: Field<D>, empty: D): Result<D, SaveError> {
    match f
    case Missing => Ok(empty)
    case Null => Err(AttributeError(what))
    case Present(d) => Ok(d)
  }

  /** `.get(key, [])` on a list that is iterated: `[]` when absent; a `null` cannot be iterated. */
  function List<D>(what: string, f: Field<seq<D>>): (r: Result<seq<D>, SaveError>)
    ensures r.Ok? <==> !f.Null?
    ensures r.Ok? ==> r.value == (if f.Present? then f.value else [])
  {
    match f
    case Missing => Ok([])
    case Null => Err(TypeError(what))
    case Present(ds) => Ok(ds)
  }

  /** The parts of the structured data the save reads before creating the case. */
  datatype Parts = Parts(ped: PedagogicalDict, clin: ClinicalDict, patient: PatientInfoDict,
                         consult: ConsultationDict, names: seq<string>)

  /**
   * The reads, in the order the source performs them: the clinical part, the
   * pedagogical part and its category list, then the patient and
   * consultation parts when the case's fields are read from them.
   */
  function ReadParts(data: FullCaseDict): Result<Parts, SaveError> {
    var clin :- Dict("clinical_data", data.clinicalData, EmptyClinical);
    var ped :- Dict("pedagogical_data", data.pedagogicalData, EmptyPedagogical);
    var names :- List("categories", ped.categories);
    var patient :- Dict("patient_info", clin.patientInfo, EmptyPatientInfo);
    var consult :- Dict("consultation_info", clin.consultationInfo, EmptyConsultation);
    Ok(Parts(ped, clin, patient, consult, names))
  }

  /** `mode_de_vie`: `{}` when absent; the column is nullable, so `null` is stored. */
  function LifestyleValue(f: Field<JsonValue>): JsonValue {
    match f
    case Missing => JObject([])
    case Null => JNull
    case Present(v) => v
  }

  /**
   * The case row `ClinicalCase.objects.create` is asked to write, with its
   * defaults: title 'Titre manquant', learning objectives '', age 0, sex
   * 'Inconnu', civil status, profession and blood group '', 0 children,
   * reason for consultation 'Non spécifié', lifestyle `{}`; the summary is
   * not passed and takes the column default ''. The raw suggested names are
   * kept as received. The id is assigned on insertion.
   */
  function CaseRecord(sourceId: string, p: Parts, chosen: seq<nat>): (r: Result<ClinicalCase, SaveError>)
    ensures r.Ok? ==> r.value.sourceId == sourceId && r.value.status == DefaultStatus && r.value.validatedBy.None?
    ensures r.Ok? ==> r.value.suggestedCategories == Some(p.names) && (forall id :: id in r.value.categories <==> id in chosen)
    ensures r.Ok? <==>
      !p.ped.caseTitle.Null? && !p.ped.learningObjectives.Null?
      && !p.patient.age.Null? && ValueOr(p.patient.age, 0) >= 0
      && !p.patient.sexe.Null? && !p.patient.etatCivil.Null? && !p.patient.profession.Null?
      && !p.patient.nombreEnfant.Null? && ValueOr(p.patient.nombreEnfant, 0) >= 0
      && !p.patient.groupeSanguin.Null? && !p.consult.motif.Null?
    ensures r.Ok? ==>
      r.value.caseTitle == ValueOr(p.ped.caseTitle, "Titre manquant")
      && r.value.learningObjectives == ValueOr(p.ped.learningObjectives, "")
      && r.value.caseSummary == ""
      && r.value.age == ValueOr(p.patient.age, 0)
      && r.value.sexe == ValueOr(p.patient.sexe, "Inconnu")
      && r.value.etatCivil == ValueOr(p.patient.etatCivil, "")
      && r.value.profession == ValueOr(p.patient.profession, "")
      && r.value.nombreEnfant == ValueOr(p.patient.nombreEnfant, 0)
      && r.value.groupeSanguin == ValueOr(p.patient.groupeSanguin, "")
      && r.value.motif == ValueOr(p.consult.motif, "Non spécifié")
      && r.value.modeDeVie == LifestyleValue(p.clin.modeDeVie)
  {
    var title :- TextValue("case_title", Get(p.ped.caseTitle, Some("Titre manquant")));
    var objectives :- TextValue("learning_objectives", Get(p.ped.learningObjectives, Some("")));
    var age :- PositiveValue("age", Get(p.patient.age, Some(0)));
    var sexe :- TextValue("sexe", Get(p.patient.sexe, Some("Inconnu")));
    var etatCivil :- TextValue("etat_civil", Get(p.patient.etatCivil, Some("")));
    var profession :- TextValue("profession", Get(p.patient.profession, Some("")));
    var enfants :- PositiveValue("nombre_enfant", Get(p.patient.nombreEnfant, Some(0)));
    var sang :- TextValue("groupe_sanguin", Get(p.patient.groupeSanguin, Some("")));
    var motif :- TextValue("motif_consultation", Get(p.consult.motif, Some("Non spécifié")));
    var categories := if |chosen| > 0 then set id | id in chosen else {};
    Ok(ClinicalCase(0, sourceId, DefaultStatus, None, title, "", objectives, motif, age, sexe, etatCivil,
      profession, enfants, sang, LifestyleValue(p.clin.modeDeVie), categories, Some(p.names)))
  }

  // ----------------------------------------------------------- child rows

  /** `Symptom.objects.create(case=..., **d)`: `degre` has no default and must not be negative. */
  function SymptomRow(caseId: nat, d: SymptomDict): (r: Result<Symptom, SaveError>)
    ensures r.Ok? <==> (!d.nom.Null? && !d.localisation.Null? && !d.dateDebut.Null? && !d.frequence.Null?
      && !d.duree.Null? && !d.evolution.Null? && !d.activiteDeclenchante.Null?
      && d.degre.Present? && d.degre.value >= 0)
    ensures r.Ok? ==> (r.value.caseId == caseId && r.value.degre == d.degre.value
      && r.value.nom == ValueOr(d.nom, "") && r.value.localisation == ValueOr(d.localisation, "")
      && r.value.dateDebut == ValueOr(d.dateDebut, "") && r.value.frequence == ValueOr(d.frequence, "")
      && r.value.duree == ValueOr(d.duree, "") && r.value.evolution == ValueOr(d.evolution, "")
      && r.value.activiteDeclenchante == ValueOr(d.activiteDeclenchante, ""))
  {
    var nom :- TextColumn("nom", d.nom);
    var localisation :- TextColumn("localisation", d.localisation);
    var dateDebut :- TextColumn("date_debut", d.dateDebut);
    var frequence :- TextColumn("frequence", d.frequence);
    var duree :- TextColumn("duree", d.duree);
    var evolution :- TextColumn("evolution", d.evolution);
    var declenchante :- TextColumn("activite_declenchante", d.activiteDeclenchante);
    var degre :- PositiveValue("degre", Get(d.degre, None));
    Ok(Symptom(caseId, nom, localisation, dateDebut, frequence, duree, evolution, declenchante, degre))
  }

  /** `MedicalHistory.objects.create(case=..., **d)`. */
  function HistoryRow(caseId: nat, d: HistoryDict): (r: Result<MedicalHistory, SaveError>)
    ensures r.Ok? <==> !d.typ.Null? && !d.description.Null?
    ensures r.Ok? ==>
      r.value.caseId == caseId
      && r.value.typ == ValueOr(d.typ, "") && r.value.description == ValueOr(d.description, "")
  {
    var typ :- TextColumn("type", d.typ);
    var description :- TextColumn("description", d.description);
    Ok(MedicalHistory(caseId, typ, description))
  }

  /** `CurrentTreatment.objects.create(case=..., **d)`. */
  function TreatmentRow(caseId: nat, d: TreatmentDict): (r: Result<CurrentTreatment, SaveError>)
    ensures r.Ok? <==> !d.nom.Null? && !d.posologie.Null? && !d.dateDebut.Null? && !d.efficacite.Null?
    ensures r.Ok? ==>
      r.value.caseId == caseId
      && r.value.nom == ValueOr(d.nom, "") && r.value.posologie == ValueOr(d.posologie, "")
      && r.value.dateDebut == ValueOr(d.dateDebut, "") && r.value.efficacite == ValueOr(d.efficacite, "")
  {
    var nom :- TextColumn("nom", d.nom);
    var posologie :- TextColumn("posologie", d.posologie);
    var dateDebut :- TextColumn("date_debut", d.dateDebut);
    var efficacite :- TextColumn("efficacite", d.efficacite);
    Ok(CurrentTreatment(caseId, nom, posologie, dateDebut, efficacite))
  }

  /** `ComplementaryExam.objects.create(case=..., **d)`. */
  function ExamRow(caseId: nat, d: ExamDict): (r: Result<ComplementaryExam, SaveError>)
    ensures r.Ok? <==> !d.nom.Null? && !d.resultat.Null?
    ensures r.Ok? ==>
      r.value.caseId == caseId
      && r.value.nom == ValueOr(d.nom, "") && r.value.resultat == ValueOr(d.resultat, "")
  {
    var nom :- TextColumn("nom", d.nom);
    var resultat :- TextColumn("resultat", d.resultat);
    Ok(ComplementaryExam(caseId, nom, resultat))
  }

  /** `PhysicalFinding.objects.create(case=..., **d)`. */
  function FindingRow(caseId: nat, d: FindingDict): (r: Result<PhysicalFinding, SaveError>)
    ensures r.Ok? <==> !d.nomExamen.Null? && !d.resultatObservation.Null?
    ensures r.Ok? ==>
      r.value.caseId == caseId
      && r.value.nomExamen == ValueOr(d.nomExamen, "")
      && r.value.resultatObservation == ValueOr(d.resultatObservation, "")
  {
    var nomExamen :- TextColumn("nom_examen", d.nomExamen);
    var observation :- TextColumn("resultat_observation", d.resultatObservation);
    Ok(PhysicalFinding(caseId, nomExamen, observation))
  }

  /** `Diagnosis.objects.create(case=..., **d)`: `is_final` defaults to false. */
  function DiagnosisRow(caseId: nat, d: DiagnosisDict): (r: Result<Diagnosis, SaveError>)
    ensures r.Ok? <==> !d.description.Null? && !d.isFinal.Null?
    ensures r.Ok? ==>
      r.value.caseId == caseId && r.value.isFinal == ValueOr(d.isFinal, false)
      && r.value.description == ValueOr(d.description, "")
  {
    var description :- TextColumn("description", d.description);
    var isFinal :- BoolColumn("is_final", d.isFinal, false);
    Ok(Diagnosis(caseId, description, isFinal))
  }

  /** Creating one row per entry, in order: the first failure stops the loop. */
  function RowsAll<D, R>(ds: seq<D>, make: D -> Result<R, SaveError>): (r: Result<seq<R>, SaveError>)
    ensures r.Ok? <==> forall k :: 0 <= k < |ds| ==> make(ds[k]).Ok?
    ensures r.Ok? ==> |r.value| == |ds| && forall k :: 0 <= k < |ds| ==> r.value[k] == make(ds[k]).value
    decreases |ds|
  {
    if ds == [] then Ok([])
    else match make(ds[0])
      case Err(e) => Err(e)
      case Ok(x) =>
        match RowsAll(ds[1..], make)
        case Err(e) => Err(e)
        case Ok(xs) => Ok([x] + xs)
  }

  /** The entries a loop `for d in clinical_data.get(key, [])` visits; `null` has none (it fails before). */
  function Entries<D>(f: Field<seq<D>>): seq<D> {
    if f.Present? then f.value else []
  }

  /**
   * `rows` holds exactly one row per entry, in order, each the row the entry
   * makes for the case.
   */
  predicate SymptomRowsFor(caseId: nat, ds: seq<SymptomDict>, rows: seq<Symptom>) {
    |rows| == |ds| && forall k :: 0 <= k < |ds| ==> SymptomRow(caseId, ds[k]) == Ok(rows[k])
  }

  /**
   * A loop over one clinical list: it fails on `null` or on the first entry
   * the table refuses; otherwise it creates one row per entry, in order,
   * each pointing at the case.
   */
  function SymptomRows(caseId: nat, f: Field<seq<SymptomDict>>): (r: Result<seq<Symptom>, SaveError>)
    ensures r.Ok? <==> !f.Null? && forall k :: 0 <= k < |Entries(f)| ==> SymptomRow(caseId, Entries(f)[k]).Ok?
    ensures r.Ok? ==> SymptomRowsFor(caseId, Entries(f), r.value)
    ensures r.Ok? ==> forall x :: x in r.value ==> x.caseId == caseId
  {
    var ds :- List("symptoms", f);
    var make := d => SymptomRow(caseId, d);
    assert ds == Entries(f);
    RowsAll(ds, make)
  }

  predicate HistoryRowsFor(caseId: nat, ds: seq<HistoryDict>, rows: seq<MedicalHistory>) {
    |rows| == |ds| && forall k :: 0 <= k < |ds| ==> HistoryRow(caseId, ds[k]) == Ok(rows[k])
  }

  function HistoryRows(caseId: nat, f: Field<seq<HistoryDict>>): (r: Result<seq<MedicalHistory>, SaveError>)
    ensures r.Ok? <==> !f.Null? && forall k :: 0 <= k < |Entries(f)| ==> HistoryRow(caseId, Entries(f)[k]).Ok?
    ensures r.Ok? ==> HistoryRowsFor(caseId, Entries(f), r.value)
    ensures r.Ok? ==> forall x :: x in r.value ==> x.caseId == caseId
  {
    var ds :- List("history_entries", f);
    var make := d => HistoryRow(caseId, d);
    assert ds == Entries(f);
    RowsAll(ds, make)
  }

  predicate TreatmentRowsFor(caseId: nat, ds: seq<TreatmentDict>, rows: seq<CurrentTreatment>) {
    |rows| == |ds| && forall k :: 0 <= k < |ds| ==> TreatmentRow(caseId, ds[k]) == Ok(rows[k])
  }

  function TreatmentRows(caseId: nat, f: Field<seq<TreatmentDict>>): (r: Result<seq<CurrentTreatment>, SaveError>)
    ensures r.Ok? <==> !f.Null? && forall k :: 0 <= k < |Entries(f)| ==> TreatmentRow(caseId, Entries(f)[k]).Ok?
    ensures r.Ok? ==> TreatmentRowsFor(caseId, Entries(f), r.value)
    ensures r.Ok? ==> forall x :: x in r.value ==> x.caseId == caseId
  {
    var ds :- List("current_treatments", f);
    var make := d => TreatmentRow(caseId, d);
    assert ds == Entries(f);
    RowsAll(ds, make)
  }

  predicate ExamRowsFor(caseId: nat, ds: seq<ExamDict>, rows: seq<ComplementaryExam>) {
    |rows| == |ds| && forall k :: 0 <= k < |ds| ==> ExamRow(caseId, ds[k]) == Ok(rows[k])
  }

  function ExamRows(caseId: nat, f: Field<seq<ExamDict>>): (r: Result<seq<ComplementaryExam>, SaveError>)
    ensures r.Ok? <==> !f.Null? && forall k :: 0 <= k < |Entries(f)| ==> ExamRow(caseId, Entries(f)[k]).Ok?
    ensures r.Ok? ==> ExamRowsFor(caseId, Entries(f), r.value)
    ensures r.Ok? ==> forall x :: x in r.value ==> x.caseId == caseId
  {
    var ds :- List("exams", f);
    var make := d => ExamRow(caseId, d);
    assert ds == Entries(f);
    RowsAll(ds, make)
  }

  predicate FindingRowsFor(caseId: nat, ds: seq<FindingDict>, rows: seq<PhysicalFinding>) {
    |rows| == |ds| && forall k :: 0 <= k < |ds| ==> FindingRow(caseId, ds[k]) == Ok(rows[k])
  }

  function FindingRows(caseId: nat, f: Field<seq<FindingDict>>): (r: Result<seq<PhysicalFinding>, SaveError>)
    ensures r.Ok? <==> !f.Null? && forall k :: 0 <= k < |Entries(f)| ==> FindingRow(caseId, Entries(f)[k]).Ok?
    ensures r.Ok? ==> FindingRowsFor(caseId, Entries(f), r.value)
    ensures r.Ok? ==> forall x :: x in r.value ==> x.caseId == caseId
  {
    var ds :- List("physical_findings", f);
    var make := d => FindingRow(caseId, d);
    assert ds == Entries(f);
    RowsAll(ds, make)
  }

  predicate DiagnosisRowsFor(caseId: nat, ds: seq<DiagnosisDict>, rows: seq<Diagnosis>) {
    |rows| == |ds| && forall k :: 0 <= k < |ds| ==> DiagnosisRow(caseId, ds[k]) == Ok(rows[k])
  }

  function DiagnosisRows(caseId: nat, f: Field<seq<DiagnosisDict>>): (r: Result<seq<Diagnosis>, SaveError>)
    ensures r.Ok? <==> !f.Null? && forall k :: 0 <= k < |Entries(f)| ==> DiagnosisRow(caseId, Entries(f)[k]).Ok?
    ensures r.Ok? ==> DiagnosisRowsFor(caseId, Entries(f), r.value)
    ensures r.Ok? ==> forall x :: x in r.value ==> x.caseId == caseId
  {
    var ds :- List("diagnoses", f);
    var make := d => DiagnosisRow(caseId, d);
    assert ds == Entries(f);
    RowsAll(ds, make)
  }

  /** The rows a save adds to the six child tables. */
  datatype ChildRows = ChildRows(
    symptoms: seq<Symptom>, history: seq<MedicalHistory>, treatments: seq<CurrentTreatment>,
    exams: seq<ComplementaryExam>, findings: seq<PhysicalFinding>, diagnoses: seq<Diagnosis>)

  /** Every row points at the given case. */
  predicate RowsLinked(rows: ChildRows, id: nat) {
    (forall r :: r in rows.symptoms ==> r.caseId == id)
    && (forall r :: r in rows.history ==> r.caseId == id)
    && (forall r :: r in rows.treatments ==> r.caseId == id)
    && (forall r :: r in rows.exams ==> r.caseId == id)
    && (forall r :: r in rows.findings ==> r.caseId == id)
    && (forall r :: r in rows.diagnoses ==> r.caseId == id)
  }

  /** One row per entry of each of the six clinical lists, in order. */
  predicate ChildRowsFor(caseId: nat, clin: ClinicalDict, rows: ChildRows) {
    SymptomRowsFor(caseId, Entries(clin.symptoms), rows.symptoms)
    && HistoryRowsFor(caseId, Entries(clin.historyEntries), rows.history)
    && TreatmentRowsFor(caseId, Entries(clin.currentTreatments), rows.treatments)
    && ExamRowsFor(caseId, Entries(clin.exams), rows.exams)
    && FindingRowsFor(caseId, Entries(clin.physicalFindings), rows.findings)
    && DiagnosisRowsFor(caseId, Entries(clin.diagnoses), rows.diagnoses)
  }

  /**
   * The six loops in source order: they succeed exactly when each of them
   * does, and then make one row per entry of each list, each pointing at the
   * case.
   */
  function BuildChildRows(caseId: nat, clin: ClinicalDict): (r: Result<ChildRows, SaveError>)
    ensures r.Ok? <==>
      SymptomRows(caseId, clin.symptoms).Ok? && HistoryRows(caseId, clin.historyEntries).Ok?
      && TreatmentRows(caseId, clin.currentTreatments).Ok? && ExamRows(caseId, clin.exams).Ok?
      && FindingRows(caseId, clin.physicalFindings).Ok? && DiagnosisRows(caseId, clin.diagnoses).Ok?
    ensures r.Ok? ==> ChildRowsFor(caseId, clin, r.value) && RowsLinked(r.value, caseId)
  {
    var ss :- SymptomRows(caseId, clin.symptoms);
    var hs :- HistoryRows(caseId, clin.historyEntries);
    var ts :- TreatmentRows(caseId, clin.currentTreatments);
    var es :- ExamRows(caseId, clin.exams);
    var fs :- FindingRows(caseId, clin.physicalFindings);
    var ds :- DiagnosisRows(caseId, clin.diagnoses);
    Ok(ChildRows(ss, hs, ts, es, fs, ds))
  }

  /** The rows appended to the child tables. */
  function AppendRows(t: CaseTables, rows: ChildRows): CaseTables {
    t.(symptoms := t.symptoms + rows.symptoms, history := t.history + rows.history,
       treatments := t.treatments + rows.treatments, exams := t.exams + rows.exams,
       findings := t.findings + rows.findings, diagnoses := t.diagnoses + rows.diagnoses)
  }

  /**
   * The child tables of `s` are those of `t` followed by exactly one row per
   * entry of each of the six clinical lists, in order, for the given case.
   */
  predicate ChildTablesExtended(t: CaseTables, s: CaseTables, caseId: nat, clin: ClinicalDict) {
    t.symptoms <= s.symptoms && t.history <= s.history && t.treatments <= s.treatments
    && t.exams <= s.exams && t.findings <= s.findings && t.diagnoses <= s.diagnoses
    && ChildRowsFor(caseId, clin, ChildRows(
         s.symptoms[|t.symptoms|..], s.history[|t.history|..], s.treatments[|t.treatments|..],
         s.exams[|t.exams|..], s.findings[|t.findings|..], s.diagnoses[|t.diagnoses|..]))
  }

  /** Appending rows gives back exactly those rows after the existing ones. */
  lemma AppendRowsAdded(t: CaseTables, rows: ChildRows, caseId: nat, clin: ClinicalDict)
    requires ChildRowsFor(caseId, clin, rows)
    ensures ChildTablesExtended(t, AppendRows(t, rows), caseId, clin)
  {
    var s := AppendRows(t, rows);
    assert s.symptoms[|t.symptoms|..] == rows.symptoms;
    assert s.history[|t.history|..] == rows.history;
    assert s.treatments[|t.treatments|..] == rows.treatments;
    assert s.exams[|t.exams|..] == rows.exams;
    assert s.findings[|t.findings|..] == rows.findings;
    assert s.diagnoses[|t.diagnoses|..] == rows.diagnoses;
  }

  /** Appending rows that point at an existing case keeps the tables valid. */
  lemma AppendRowsValid(t: CaseTables, rows: ChildRows, id: nat)
    requires Valid(t) && id in CaseIds(t) && RowsLinked(rows, id)
    ensures Valid(AppendRows(t, rows))
  {
  }

  // ------------------------------------------------------------- the save

  /** What a successful save gives back: the new tables, the new case's id, the created category names. */
  datatype Saved = Saved(tables: CaseTables, caseId: nat, created: seq<string>)

  /** The category loop started from the current table. */
  function CategoriesFor(t: CaseTables, names: seq<string>): CategoryState {
    AssignCategories(CategoryState(t.categories, t.nextCategoryId, [], []), names)
  }

  /** The tables with the categories of the loop in place. */
  function WithCategories(t: CaseTables, st: CategoryState): CaseTables {
    t.(categories := st.cats, nextCategoryId := st.nextId)
  }

  /** `save_structured_data_to_db(data, source_id)`, step by step in the order of the source. */
  function SaveSpec(t: CaseTables, data: FullCaseDict, sourceId: string): Result<Saved, SaveError> {
    var p :- ReadParts(data);
    var st := CategoriesFor(t, p.names);
    var record :- CaseRecord(sourceId, p, st.chosen);
    var withCase :- InsertCase(WithCategories(t, st), record);
    var rows :- BuildChildRows(t.nextCaseId, p.clin);
    Ok(Saved(AppendRows(withCase, rows), t.nextCaseId, st.created))
  }

  /** The category loop keeps the tables valid and only adds categories after the existing ones. */
  lemma WithCategoriesValid(t: CaseTables, names: seq<string>)
    requires Valid(t)
    ensures var st := CategoriesFor(t, names);
      Valid(WithCategories(t, st))
      && (forall id :: id in st.chosen ==> id in CategoryIds(st.cats))
      && |t.categories| <= |st.cats| && st.cats[..|t.categories|] == t.categories
  {
    var st0 := CategoryState(t.categories, t.nextCategoryId, [], []);
    AssignCategoriesValid(st0, names);
    AssignCategoriesExtends(st0, names);
    var st := CategoriesFor(t, names);
    assert st.cats[..|t.categories|] == t.categories;
    assert CategoryIds(t.categories) <= CategoryIds(st.cats) by {
      forall x | x in CategoryIds(t.categories) ensures x in CategoryIds(st.cats) {
        var w :| w in t.categories && w.id == x;
        assert w in st.cats[..|t.categories|];
      }
    }
  }

  /**
   * A successful save keeps the database valid, adds exactly one case (with
   * the given source identifier, awaiting review, holding the raw suggested
   * names, its fields those `CaseRecord` gives) and appends, after the
   * existing rows of each of the six child tables, exactly one row per entry
   * of the matching clinical list, in order, each pointing at the new case.
   */
  lemma SaveSpecMeaning(t: CaseTables, data: FullCaseDict, sourceId: string)
    requires Valid(t)
    ensures SaveSpec(t, data, sourceId).Ok? ==>
      var s := SaveSpec(t, data, sourceId).value;
      Valid(s.tables) && s.caseId == t.nextCaseId && s.tables.nextCaseId == t.nextCaseId + 1
      && |s.tables.cases| == |t.cases| + 1 && s.tables.cases[..|t.cases|] == t.cases
      && s.tables.cases[|t.cases|].id == s.caseId && s.tables.cases[|t.cases|].sourceId == sourceId
      && s.tables.cases[|t.cases|].status == NonApprouve && s.tables.cases[|t.cases|].validatedBy.None?
      && s.tables.cases[|t.cases|].suggestedCategories == Some(ReadParts(data).value.names)
      && s.tables.cases[|t.cases|]
           == CaseRecord(sourceId, ReadParts(data).value, CategoriesFor(t, ReadParts(data).value.names).chosen).value.(id := s.caseId)
      && |t.categories| <= |s.tables.categories| && s.tables.categories[..|t.categories|] == t.categories
      && ChildTablesExtended(t, s.tables, s.caseId, ReadParts(data).value.clin)
  {
    if SaveSpec(t, data, sourceId).Ok? {
      var p := ReadParts(data).value;
      var st := CategoriesFor(t, p.names);
      WithCategoriesValid(t, p.names);
      var record := CaseRecord(sourceId, p, st.chosen).value;
      var wc := WithCategories(t, st);
      assert record.categories <= CategoryIds(wc.categories);
      InsertCaseValid(wc, record);
      var withCase := InsertCase(wc, record).value;
      assert withCase.cases[|t.cases|].id == t.nextCaseId;
      assert t.nextCaseId in CaseIds(withCase) by {
        assert withCase.cases[|t.cases|] in withCase.cases;
      }
      var rows := BuildChildRows(t.nextCaseId, p.clin).value;
      AppendRowsValid(withCase, rows, t.nextCaseId);
      AppendRowsAdded(withCase, rows, t.nextCaseId, p.clin);
      var s := AppendRows(withCase, rows);
      assert s.cases[..|t.cases|] == t.cases;
    }
  }

  /** A source identifier already in the table makes the save fail, so it never creates a second case for it. */
  lemma SaveRefusesKnownSource(t: CaseTables, data: FullCaseDict, sourceId: string)
    requires SourceIdTaken(t.cases, sourceId)
    ensures SaveSpec(t, data, sourceId).Err?
  {
    if ReadParts(data).Ok? {
      var p := ReadParts(data).value;
      var st := CategoriesFor(t, p.names);
      if CaseRecord(sourceId, p, st.chosen).Ok? {
        var record := CaseRecord(sourceId, p, st.chosen).value;
        assert record.sourceId == sourceId;
        assert InsertCase(WithCategories(t, st), record).Err?;
      }
    }
  }

  /**
   * Saving the empty dictionary `{}` under a new source identifier writes a
   * case made of defaults only, with no category and no child row.
   */
  lemma SaveEmptyUsesDefaults(t: CaseTables, sourceId: string)
    requires !SourceIdTaken(t.cases, sourceId)
    ensures var r := SaveSpec(t, FullCaseDict(Missing, Missing, Missing), sourceId);
      r.Ok? && r.value.created == [] && |r.value.tables.cases| == |t.cases| + 1
      && r.value.tables.categories == t.categories
      && r.value.tables.symptoms == t.symptoms && r.value.tables.diagnoses == t.diagnoses
      && var c := r.value.tables.cases[|t.cases|];
        c.caseTitle == "Titre manquant" && c.caseSummary == "" && c.learningObjectives == ""
        && c.age == 0 && c.sexe == "Inconnu" && c.etatCivil == "" && c.profession == ""
        && c.nombreEnfant == 0 && c.groupeSanguin == "" && c.motif == "Non spécifié"
        && c.modeDeVie == JObject([]) && c.categories == {} && c.suggestedCategories == Some([])
  {
    var data := FullCaseDict(Missing, Missing, Missing);
    var p := Parts(EmptyPedagogical, EmptyClinical, EmptyPatientInfo, EmptyConsultation, []);
    assert ReadParts(data) == Ok(p);
    var st0 := CategoryState(t.categories, t.nextCategoryId, [], []);
    assert CategoriesFor(t, []) == st0;
    var record := CaseRecord(sourceId, p, []);
    assert record.Ok?;
    assert record.value.sourceId == sourceId;
    assert SymptomRows(t.nextCaseId, Missing) == Ok([]);
    assert HistoryRows(t.nextCaseId, Missing) == Ok([]);
    assert TreatmentRows(t.nextCaseId, Missing) == Ok([]);
    assert ExamRows(t.nextCaseId, Missing) == Ok([]);
    assert FindingRows(t.nextCaseId, Missing) == Ok([]);
    assert DiagnosisRows(t.nextCaseId, Missing) == Ok([]);
    assert BuildChildRows(t.nextCaseId, EmptyClinical) == Ok(ChildRows([], [], [], [], [], []));
  }

  /**
   * A symptom without a severity, or with a text field set to `null`,
   * cannot be stored: the save fails as a whole. This holds in particular
   * for the schema's own dump of a symptom whose `degre` or `localisation`
   * is `None`.
   */
  lemma BadSymptomFailsSave(t: CaseTables, data: FullCaseDict, sourceId: string, k: nat)
    requires data.clinicalData.Present? && data.clinicalData.value.symptoms.Present?
    requires k < |data.clinicalData.value.symptoms.value|
    requires var d := data.clinicalData.value.symptoms.value[k]; !d.degre.Present? || d.localisation.Null?
    ensures SaveSpec(t, data, sourceId).Err?
  {
    var clin := data.clinicalData.value;
    var ds := clin.symptoms.value;
    assert SymptomRow(t.nextCaseId, ds[k]).Err?;
    assert RowsAll(ds, d => SymptomRow(t.nextCaseId, d)).Err?;
    assert SymptomRows(t.nextCaseId, clin.symptoms).Err?;
    if ReadParts(data).Ok? {
      assert ReadParts(data).value.clin == clin;
    }
  }

  // ------------------------------------------------------ the database class

  /** The first category matching a name up to case (`get(name__iexact=...)`). */
  method FindCategory(cats: seq<Category>, name: string) returns (r: Option<nat>)
    ensures r == FindIgnoreCase(cats, name)
  {
    var i := 0;
    while i < |cats|
      invariant 0 <= i <= |cats|
      invariant forall k :: 0 <= k < i ==> !EqualsIgnoreCase(cats[k].name, name)
    {
      if Lower(cats[i].name) == Lower(name) {
        return Some(i);
      }
      i := i + 1;
    }
    return None;
  }

  /** The category loop of the save: find or create each non-blank stripped name. */
  method NormaliseCategories(cats: seq<Category>, nextId: nat, names: seq<string>) returns (st: CategoryState)
    ensures st == AssignCategories(CategoryState(cats, nextId, [], []), names)
  {
    var table, next, chosen, created := cats, nextId, [], [];
    var i := 0;
    while i < |names|
      invariant 0 <= i <= |names|
      invariant CategoryState(table, next, chosen, created) == AssignCategories(CategoryState(cats, nextId, [], []), names[..i])
    {
      ghost var before := CategoryState(table, next, chosen, created);
      assert AssignCategories(CategoryState(cats, nextId, [], []), names[..i + 1])
          == CategoryStep(AssignCategories(CategoryState(cats, nextId, [], []), names[..i]), names[i]) by {
        assert names[..i + 1][..i] == names[..i];
      }
      var clean := Strip(names[i]);
      if clean != "" {
        var found := FindCategory(table, clean);
        if found.Some? {
          chosen := chosen + [table[found.value].id];
          assert CategoryState(table, next, chosen, created) == before.(chosen := before.chosen + [before.cats[found.value].id]);
        } else {
          table := table + [Category(next, clean)];
          chosen := chosen + [next];
          created := created + [clean];
          next := next + 1;
        }
      }
      assert CategoryState(table, next, chosen, created) == CategoryStep(before, names[i]);
      i := i + 1;
    }
    assert names[..i] == names;
    st := CategoryState(table, next, chosen, created);
  }

  /** When every earlier entry succeeds, the first failing entry's error is the error of the whole loop. */
  lemma {:induction false} FirstFailure<D, R>(ds: seq<D>, make: D -> Result<R, SaveError>, i: nat)
    requires i < |ds| && make(ds[i]).Err?
    requires forall k :: 0 <= k < i ==> make(ds[k]).Ok?
    ensures RowsAll(ds, make) == Err(make(ds[i]).error)
    decreases i
  {
    if i > 0 {
      FirstFailure(ds[1..], make, i - 1);
      assert make(ds[0]).Ok?;
    }
  }

  /** One `create` per entry, in order; stops at the first failure. */
  method CreateRows<D, R>(ds: seq<D>, make: D -> Result<R, SaveError>) returns (r: Result<seq<R>, SaveError>)
    ensures r == RowsAll(ds, make)
  {
    var rows: seq<R> := [];
    var i := 0;
    while i < |ds|
      invariant 0 <= i <= |ds|
      invariant |rows| == i && forall k :: 0 <= k < i ==> make(ds[k]).Ok? && rows[k] == make(ds[k]).value
    {
      var row := make(ds[i]);
      if row.Err? {
        FirstFailure(ds, make, i);
        return Err(row.error);
      }
      rows := rows + [row.value];
      i := i + 1;
    }
    assert RowsAll(ds, make).value == rows;
    return Ok(rows);
  }

  /** The six loops of the save, each stopping the save at its first failure. */
  method CreateChildRows(caseId: nat, clin: ClinicalDict) returns (r: Result<ChildRows, SaveError>)
    ensures r == BuildChildRows(caseId, clin)
  {
    var ss := List("symptoms", clin.symptoms);
    if ss.Err? { return Err(ss.error); }
    var sr := CreateRows(ss.value, d => SymptomRow(caseId, d));
    if sr.Err? { return Err(sr.error); }
    var hs := List("history_entries", clin.historyEntries);
    if hs.Err? { return Err(hs.error); }
    var hr := CreateRows(hs.value, d => HistoryRow(caseId, d));
    if hr.Err? { return Err(hr.error); }
    var ts := List("current_treatments", clin.currentTreatments);
    if ts.Err? { return Err(ts.error); }
    var tr := CreateRows(ts.value, d => TreatmentRow(caseId, d));
    if tr.Err? { return Err(tr.error); }
    var es := List("exams", clin.exams);
    if es.Err? { return Err(es.error); }
    var er := CreateRows(es.value, d => ExamRow(caseId, d));
    if er.Err? { return Err(er.error); }
    var fs := List("physical_findings", clin.physicalFindings);
    if fs.Err? { return Err(fs.error); }
    var fr := CreateRows(fs.value, d => FindingRow(caseId, d));
    if fr.Err? { return Err(fr.error); }
    var ds := List("diagnoses", clin.diagnoses);
    if ds.Err? { return Err(ds.error); }
    var dr := CreateRows(ds.value, d => DiagnosisRow(caseId, d));
    if dr.Err? { return Err(dr.error); }
    r := Ok(ChildRows(sr.value, hr.value, tr.value, er.value, fr.value, dr.value));
  }

  /** The case database; its tables are replaced only when a save commits. */
  class CaseDatabase {
    var tables: CaseTables

    constructor ()
      ensures tables == EmptyTables && Valid(tables)
    {
      tables := EmptyTables;
      EmptyTablesValid();
    }

    /**
     * `save_structured_data_to_db(data, source_id)` under `transaction.atomic`:
     * the changes are staged and committed only if every step succeeds; on
     * success the tables are those of `SaveSpec` and the new case's id and
     * the created category names are returned; on failure nothing changes.
     */
    method SaveStructuredData(data: FullCaseDict, sourceId: string) returns (r: Result<(nat, seq<string>), SaveError>)
      requires Valid(tables)
      modifies this
      ensures Valid(tables)
      ensures var spec := SaveSpec(old(tables), data, sourceId);
        (spec.Ok? ==> r == Ok((spec.value.caseId, spec.value.created)) && tables == spec.value.tables)
        && (spec.Err? ==> r == Err(spec.error) && tables == old(tables))
    {
      SaveSpecMeaning(tables, data, sourceId);
      var t := tables;
      var p := ReadParts(data);
      if p.Err? { return Err(p.error); }
      var st := NormaliseCategories(t.categories, t.nextCategoryId, p.value.names);
      var record := CaseRecord(sourceId, p.value, st.chosen);
      if record.Err? { return Err(record.error); }
      var staged := InsertCase(WithCategories(t, st), record.value);
      if staged.Err? { return Err(staged.error); }
      var rows := CreateChildRows(t.nextCaseId, p.value.clin);
      if rows.Err? { return Err(rows.error); }
      tables := AppendRows(staged.value, rows.value);
      r := Ok((t.nextCaseId, st.created));
    }
  }
}
