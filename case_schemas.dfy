/**
 * The structured form of a clinical case (backend/cases/schema/case_schemas.py).
 *
 * Two views of the same data. The dictionary view is the decoded JSON object
 * as the import code reads it, key by key with `dict.get`; every key may be
 * absent, `null`, or hold a value, and keys the structures do not declare
 * (`nombre_enfant`, `groupe_sanguin`, `mode_de_vie`, a treatment's
 * `date_debut`) are readable too. The structure view is the validated
 * record: a required field holds a value, an optional field holds a value
 * or `None` (its default).
 *
 * Validation reads a dictionary into a structure (a required field that is
 * absent or `null` fails; an optional one that is absent or `null` becomes
 * `None`; undeclared keys are ignored); dumping writes a structure back as a
 * dictionary with every declared key, `None` as `null`.
 */
module CaseSchemas {
  import opened Wrappers
  import opened Json

  // ------------------------------------------------------- dictionary view

  datatype SymptomDict = SymptomDict(
    nom: Field<string>, localisation: Field<string>, dateDebut: Field<string>, frequence: Field<string>,
    duree: Field<string>, evolution: Field<string>, activiteDeclenchante: Field<string>, degre: Field<int>)

  datatype HistoryDict = HistoryDict(typ: Field<string>, description: Field<string>)

  datatype TreatmentDict = TreatmentDict(nom: Field<string>, posologie: Field<string>, dateDebut: Field<string>, efficacite: Field<string>)

  datatype ExamDict = ExamDict(nom: Field<string>, resultat: Field<string>)

  datatype FindingDict = FindingDict(nomExamen: Field<string>, resultatObservation: Field<string>)

  datatype DiagnosisDict = DiagnosisDict(description: Field<string>, isFinal: Field<bool>)

  datatype PedagogicalDict = PedagogicalDict(
    caseTitle: Field<string>, categories: Field<seq<string>>, difficulty: Field<string>,
    learningObjectives: Field<string>, keyQuestions: Field<seq<string>>, commonPitfalls: Field<string>)

  datatype SimulationDict = SimulationDict(patientPersona: Field<string>, initialStatement: Field<string>)

  datatype PatientInfoDict = PatientInfoDict(
    age: Field<int>, sexe: Field<string>, etatCivil: Field<string>, profession: Field<string>,
    nombreEnfant: Field<int>, groupeSanguin: Field<string>)

  datatype ConsultationDict = ConsultationDict(motif: Field<string>)

  datatype ClinicalDict = ClinicalDict(
    patientInfo: Field<PatientInfoDict>, consultationInfo: Field<ConsultationDict>, modeDeVie: Field<JsonValue>,
    symptoms: Field<seq<SymptomDict>>, historyEntries: Field<seq<HistoryDict>>,
    currentTreatments: Field<seq<TreatmentDict>>, exams: Field<seq<ExamDict>>,
    physicalFindings: Field<seq<FindingDict>>, diagnoses: Field<seq<DiagnosisDict>>)

  datatype FullCaseDict = FullCaseDict(
    pedagogicalData: Field<PedagogicalDict>, simulationData: Field<SimulationDict>, clinicalData: Field<ClinicalDict>)

  /** The empty dictionaries `{}`, every key absent. */
  const EmptyPedagogical: PedagogicalDict := PedagogicalDict(Missing, Missing, Missing, Missing, Missing, Missing)
  const EmptyPatientInfo: PatientInfoDict := PatientInfoDict(Missing, Missing, Missing, Missing, Missing, Missing)
  const EmptyConsultation: ConsultationDict := ConsultationDict(Missing)
  const EmptyClinical: ClinicalDict := ClinicalDict(Missing, Missing, Missing, Missing, Missing, Missing, Missing, Missing, Missing)

  // -------------------------------------------------------- structure view

  datatype SymptomStructure = SymptomStructure(
    nom: string, localisation: Option<string>, dateDebut: Option<string>, frequence: Option<string>,
    duree: Option<string>, evolution: Option<string>, activiteDeclenchante: Option<string>, degre: Option<int>)

  datatype HistoryEntryStructure = HistoryEntryStructure(typ: string, description: string)

  datatype TreatmentStructure = TreatmentStructure(nom: string, posologie: Option<string>, efficacite: Option<string>)

  datatype ExamStructure = ExamStructure(nom: string, resultat: string)

  datatype PhysicalFindingStructure = PhysicalFindingStructure(nomExamen: string, resultatObservation: string)

  datatype DiagnosisStructure = DiagnosisStructure(description: string, isFinal: bool)

  datatype PedagogicalDataStructure = PedagogicalDataStructure(
    caseTitle: string, categories: seq<string>, difficulty: string, learningObjectives: string,
    keyQuestions: seq<string>, commonPitfalls: string)

  datatype SimulationDataStructure = SimulationDataStructure(patientPersona: string, initialStatement: string)

  datatype PatientInfoStructure = PatientInfoStructure(age: int, sexe: string, etatCivil: Option<string>, profession: Option<string>)

  datatype ConsultationInfoStructure = ConsultationInfoStructure(motif: string)

  datatype ClinicalDataStructure = ClinicalDataStructure(
    patientInfo: PatientInfoStructure, consultationInfo: ConsultationInfoStructure,
    symptoms: seq<SymptomStructure>, historyEntries: seq<HistoryEntryStructure>,
    currentTreatments: seq<TreatmentStructure>, exams: seq<ExamStructure>,
    physicalFindings: seq<PhysicalFindingStructure>, diagnoses: seq<DiagnosisStructure>)

  datatype FullCaseStructure = FullCaseStructure(
    pedagogical: PedagogicalDataStructure, simulation: SimulationDataStructure, clinical: ClinicalDataStructure)

  // ------------------------------------------------------------ validation

  /** A field without a default: only a value is accepted. */
  function Required<T>(f: Field<T>): Option<T> {
    if f.Present? then Some(f.value) else None
  }

  /** A field whose default is `None`: absent and `null` both read as `None`. */
  function Optional<T>(f: Field<T>): Option<T> {
    Get(f, None)
  }

  /** Validates every element of a list; fails as soon as one element fails. */
  function ValidateAll<D, S>(ds: seq<D>, validate: D -> Option<S>): (r: Option<seq<S>>)
    ensures r.Some? <==> forall k :: 0 <= k < |ds| ==> validate(ds[k]).Some?
    ensures r.Some? ==> |r.value| == |ds| && forall k :: 0 <= k < |ds| ==> r.value[k] == validate(ds[k]).value
    decreases |ds|
  {
    if ds == [] then Some([])
    else match validate(ds[0])
      case None => None
      case Some(x) =>
        match ValidateAll(ds[1..], validate)
        case None => None
        case Some(xs) => Some([x] + xs)
  }

  /** A required list field. */
  function ValidateList<D, S>(f: Field<seq<D>>, validate: D -> Option<S>): Option<seq<S>> {
    if f.Present? then ValidateAll(f.value, validate) else None
  }

  /** A required nested structure. */
  function ValidateNested<D, S>(f: Field<D>, validate: D -> Option<S>): Option<S> {
    if f.Present? then validate(f.value) else None
  }

  function ValidateSymptom(d: SymptomDict): Option<SymptomStructure> {
    if d.nom.Present? then
      Some(SymptomStructure(d.nom.value, Optional(d.localisation), Optional(d.dateDebut), Optional(d.frequence),
        Optional(d.duree), Optional(d.evolution), Optional(d.activiteDeclenchante), Optional(d.degre)))
    else None
  }

  function ValidateHistoryEntry(d: HistoryDict): Option<HistoryEntryStructure> {
    if d.typ.Present? && d.description.Present? then Some(HistoryEntryStructure(d.typ.value, d.description.value)) else None
  }

  function ValidateTreatment(d: TreatmentDict): Option<TreatmentStructure> {
    if d.nom.Present? then Some(TreatmentStructure(d.nom.value, Optional(d.posologie), Optional(d.efficacite))) else None
  }

  function ValidateExam(d: ExamDict): Option<ExamStructure> {
    if d.nom.Present? && d.resultat.Present? then Some(ExamStructure(d.nom.value, d.resultat.value)) else None
  }

  function ValidateFinding(d: FindingDict): Option<PhysicalFindingStructure> {
    if d.nomExamen.Present? && d.resultatObservation.Present? then
      Some(PhysicalFindingStructure(d.nomExamen.value, d.resultatObservation.value))
    else None
  }

  function ValidateDiagnosis(d: DiagnosisDict): Option<DiagnosisStructure> {
    if d.description.Present? && d.isFinal.Present? then Some(DiagnosisStructure(d.description.value, d.isFinal.value)) else None
  }

  function ValidatePedagogical(d: PedagogicalDict): Option<PedagogicalDataStructure> {
    if d.caseTitle.Present? && d.categories.Present? && d.difficulty.Present? && d.learningObjectives.Present?
       && d.keyQuestions.Present? && d.commonPitfalls.Present? then
      Some(PedagogicalDataStructure(d.caseTitle.value, d.categories.value, d.difficulty.value,
        d.learningObjectives.value, d.keyQuestions.value, d.commonPitfalls.value))
    else None
  }

  function ValidateSimulation(d: SimulationDict): Option<SimulationDataStructure> {
    if d.patientPersona.Present? && d.initialStatement.Present? then
      Some(SimulationDataStructure(d.patientPersona.value, d.initialStatement.value))
    else None
  }

  function ValidatePatientInfo(d: PatientInfoDict): Option<PatientInfoStructure> {
    if d.age.Present? && d.sexe.Present? then
      Some(PatientInfoStructure(d.age.value, d.sexe.value, Optional(d.etatCivil), Optional(d.profession)))
    else None
  }

  function ValidateConsultation(d: ConsultationDict): Option<ConsultationInfoStructure> {
    if d.motif.Present? then Some(ConsultationInfoStructure(d.motif.value)) else None
  }

  function ValidateClinical(d: ClinicalDict): Option<ClinicalDataStructure> {
    var pi := ValidateNested(d.patientInfo, ValidatePatientInfo);
    var ci := ValidateNested(d.consultationInfo, ValidateConsultation);
    var ss := ValidateList(d.symptoms, ValidateSymptom);
    var hs := ValidateList(d.historyEntries, ValidateHistoryEntry);
    var ts := ValidateList(d.currentTreatments, ValidateTreatment);
    var es := ValidateList(d.exams, ValidateExam);
    var fs := ValidateList(d.physicalFindings, ValidateFinding);
    var ds := ValidateList(d.diagnoses, ValidateDiagnosis);
    if pi.Some? && ci.Some? && ss.Some? && hs.Some? && ts.Some? && es.Some? && fs.Some? && ds.Some? then
      Some(ClinicalDataStructure(pi.value, ci.value, ss.value, hs.value, ts.value, es.value, fs.value, ds.value))
    else None
  }

  function ValidateFullCase(d: FullCaseDict): Option<FullCaseStructure> {
    var p := ValidateNested(d.pedagogicalData, ValidatePedagogical);
    var s := ValidateNested(d.simulationData, ValidateSimulation);
    var c := ValidateNested(d.clinicalData, ValidateClinical);
    if p.Some? && s.Some? && c.Some? then Some(FullCaseStructure(p.value, s.value, c.value)) else None
  }

  // ---------------------------------------------------------------- dumping

  /** `None` is written as `null`. */
  function OrNull<T>(o: Option<T>): Field<T> {
    if o.Some? then Present(o.value) else Null
  }

  function DumpAll<S, D>(ss: seq<S>, dump: S -> D): (r: seq<D>)
    ensures |r| == |ss| && forall k :: 0 <= k < |ss| ==> r[k] == dump(ss[k])
  {
    seq(|ss|, k requires 0 <= k < |ss| => dump(ss[k]))
  }

  function DumpSymptom(s: SymptomStructure): SymptomDict {
    SymptomDict(Present(s.nom), OrNull(s.localisation), OrNull(s.dateDebut), OrNull(s.frequence),
      OrNull(s.duree), OrNull(s.evolution), OrNull(s.activiteDeclenchante), OrNull(s.degre))
  }

  function DumpHistoryEntry(s: HistoryEntryStructure): HistoryDict {
    HistoryDict(Present(s.typ), Present(s.description))
  }

  function DumpTreatment(s: TreatmentStructure): TreatmentDict {
    TreatmentDict(Present(s.nom), OrNull(s.posologie), Missing, OrNull(s.efficacite))
  }

  function DumpExam(s: ExamStructure): ExamDict {
    ExamDict(Present(s.nom), Present(s.resultat))
  }

  function DumpFinding(s: PhysicalFindingStructure): FindingDict {
    FindingDict(Present(s.nomExamen), Present(s.resultatObservation))
  }

  function DumpDiagnosis(s: DiagnosisStructure): DiagnosisDict {
    DiagnosisDict(Present(s.description), Present(s.isFinal))
  }

  function DumpPedagogical(s: PedagogicalDataStructure): PedagogicalDict {
    PedagogicalDict(Present(s.caseTitle), Present(s.categories), Present(s.difficulty),
      Present(s.learningObjectives), Present(s.keyQuestions), Present(s.commonPitfalls))
  }

  function DumpSimulation(s: SimulationDataStructure): SimulationDict {
    SimulationDict(Present(s.patientPersona), Present(s.initialStatement))
  }

  function DumpPatientInfo(s: PatientInfoStructure): PatientInfoDict {
    PatientInfoDict(Present(s.age), Present(s.sexe), OrNull(s.etatCivil), OrNull(s.profession), Missing, Missing)
  }

  function DumpClinical(s: ClinicalDataStructure): ClinicalDict {
    ClinicalDict(Present(DumpPatientInfo(s.patientInfo)), Present(ConsultationDict(Present(s.consultationInfo.motif))), Missing,
      Present(DumpAll(s.symptoms, DumpSymptom)), Present(DumpAll(s.historyEntries, DumpHistoryEntry)),
      Present(DumpAll(s.currentTreatments, DumpTreatment)), Present(DumpAll(s.exams, DumpExam)),
      Present(DumpAll(s.physicalFindings, DumpFinding)), Present(DumpAll(s.diagnoses, DumpDiagnosis)))
  }

  function DumpFullCase(s: FullCaseStructure): FullCaseDict {
    FullCaseDict(Present(DumpPedagogical(s.pedagogical)), Present(DumpSimulation(s.simulation)), Present(DumpClinical(s.clinical)))
  }

  // ------------------------------------------------------------- properties

  /** Validating a dumped list gives the list back when each element round-trips. */
  lemma ValidateDumpAll<S, D>(ss: seq<S>, dump: S -> D, validate: D -> Option<S>)
    requires forall x :: validate(dump(x)) == Some(x)
    ensures ValidateAll(DumpAll(ss, dump), validate) == Some(ss)
  {
    var r := ValidateAll(DumpAll(ss, dump), validate);
    assert r.Some?;
    assert r.value == ss;
  }

  /** Every list element survives a dump followed by a validation. */
  lemma ElementsRoundTrip()
    ensures forall x :: ValidateSymptom(DumpSymptom(x)) == Some(x)
    ensures forall x :: ValidateHistoryEntry(DumpHistoryEntry(x)) == Some(x)
    ensures forall x :: ValidateTreatment(DumpTreatment(x)) == Some(x)
    ensures forall x :: ValidateExam(DumpExam(x)) == Some(x)
    ensures forall x :: ValidateFinding(DumpFinding(x)) == Some(x)
    ensures forall x :: ValidateDiagnosis(DumpDiagnosis(x)) == Some(x)
  {
  }

  /** The six lists of clinical data survive a dump followed by a validation. */
  lemma ClinicalListsRoundTrip(c: ClinicalDataStructure)
    ensures ValidateList(Present(DumpAll(c.symptoms, DumpSymptom)), ValidateSymptom) == Some(c.symptoms)
    ensures ValidateList(Present(DumpAll(c.historyEntries, DumpHistoryEntry)), ValidateHistoryEntry) == Some(c.historyEntries)
    ensures ValidateList(Present(DumpAll(c.currentTreatments, DumpTreatment)), ValidateTreatment) == Some(c.currentTreatments)
    ensures ValidateList(Present(DumpAll(c.exams, DumpExam)), ValidateExam) == Some(c.exams)
    ensures ValidateList(Present(DumpAll(c.physicalFindings, DumpFinding)), ValidateFinding) == Some(c.physicalFindings)
    ensures ValidateList(Present(DumpAll(c.diagnoses, DumpDiagnosis)), ValidateDiagnosis) == Some(c.diagnoses)
  {
    ElementsRoundTrip();
    ValidateDumpAll(c.symptoms, DumpSymptom, ValidateSymptom);
    ValidateDumpAll(c.historyEntries, DumpHistoryEntry, ValidateHistoryEntry);
    ValidateDumpAll(c.currentTreatments, DumpTreatment, ValidateTreatment);
    ValidateDumpAll(c.exams, DumpExam, ValidateExam);
    ValidateDumpAll(c.physicalFindings, DumpFinding, ValidateFinding);
    ValidateDumpAll(c.diagnoses, DumpDiagnosis, ValidateDiagnosis);
  }

  /** Clinical data survives a dump followed by a validation. */
  lemma ClinicalRoundTrip(c: ClinicalDataStructure)
    ensures ValidateClinical(DumpClinical(c)) == Some(c)
  {
    ClinicalListsRoundTrip(c);
  }

  /** A full case survives a dump followed by a validation. */
  lemma FullCaseRoundTrip(s: FullCaseStructure)
    ensures ValidateFullCase(DumpFullCase(s)) == Some(s)
  {
    ClinicalRoundTrip(s.clinical);
  }

  /** A symptom needs only its name; every other field may be absent or `null` and then reads as `None`. */
  lemma SymptomRequiresOnlyName(d: SymptomDict)
    ensures ValidateSymptom(d).Some? <==> d.nom.Present?
    ensures ValidateSymptom(d).Some? ==> ValidateSymptom(d).value.nom == d.nom.value
    ensures ValidateSymptom(d).Some? && !d.degre.Present? ==> ValidateSymptom(d).value.degre == None
    ensures ValidateSymptom(d).Some? && !d.localisation.Present? ==> ValidateSymptom(d).value.localisation == None
  {
  }

  /** A diagnosis needs both its description and its finality; neither has a default. */
  lemma DiagnosisRequiresBoth(d: DiagnosisDict)
    ensures ValidateDiagnosis(d).Some? <==> d.description.Present? && d.isFinal.Present?
  {
  }

  /** Patient information needs the age and the sex; civil status and profession are optional. */
  lemma PatientInfoRequirements(d: PatientInfoDict)
    ensures ValidatePatientInfo(d).Some? <==> d.age.Present? && d.sexe.Present?
    ensures ValidatePatientInfo(d).Some? && !d.etatCivil.Present? ==> ValidatePatientInfo(d).value.etatCivil == None
    ensures ValidatePatientInfo(d).Some? && !d.profession.Present? ==> ValidatePatientInfo(d).value.profession == None
  {
  }

  /** Clinical data needs all eight parts: a missing list fails even when it would be empty. */
  lemma ClinicalRequiresAllParts(d: ClinicalDict)
    ensures ValidateClinical(d).Some? ==>
      d.patientInfo.Present? && d.consultationInfo.Present? && d.symptoms.Present? && d.historyEntries.Present?
      && d.currentTreatments.Present? && d.exams.Present? && d.physicalFindings.Present? && d.diagnoses.Present?
    ensures ValidateClinical(d).Some? ==> |ValidateClinical(d).value.symptoms| == |d.symptoms.value|
    ensures ValidateClinical(d.(symptoms := Missing)).None? && ValidateClinical(d.(diagnoses := Null)).None?
  {
  }

  /** A full case needs its pedagogical, simulation and clinical parts. */
  lemma FullCaseRequiresAllParts(d: FullCaseDict)
    ensures ValidateFullCase(d).Some? <==>
      ValidateNested(d.pedagogicalData, ValidatePedagogical).Some?
      && ValidateNested(d.simulationData, ValidateSimulation).Some?
      && ValidateNested(d.clinicalData, ValidateClinical).Some?
    ensures !d.pedagogicalData.Present? || !d.simulationData.Present? || !d.clinicalData.Present? ==> ValidateFullCase(d).None?
  {
  }
}
