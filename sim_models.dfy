/**
 * The simulation tables (backend/simulation/models.py): simulation sessions,
 * which tie a learner to a clinical case, and the chat messages exchanged in
 * a session.
 *
 * `auto_now_add` timestamps are readings of a logical clock kept with the
 * tables, which advances by one at every row created; users are numbered.
 */
module SimModels {
  import opened Wrappers
  import opened CaseModels

  // ---------------------------------------------------------------- choices

  datatype SessionStatus = InProgress | Completed | Canceled

  function SessionStatusValue(s: SessionStatus): string {
    match s
    case InProgress => "in_progress"
    case Completed => "completed"
    case Canceled => "canceled"
  }

  function SessionStatusLabel(s: SessionStatus): string {
    match s
    case InProgress => "En Cours"
    case Completed => "Terminée"
    case Canceled => "Annulée"
  }

  function ParseSessionStatus(v: string): (r: Option<SessionStatus>)
    ensures r.Some? ==> SessionStatusValue(r.value) == v
  {
    if v == "in_progress" then Some(InProgress)
    else if v == "completed" then Some(Completed)
    else if v == "canceled" then Some(Canceled)
    else None
  }

  /** The stored value of every status reads back as that status; no other value is a status. */
  lemma SessionStatusRoundTrip(s: SessionStatus, v: string)
    ensures ParseSessionStatus(SessionStatusValue(s)) == Some(s)
    ensures ParseSessionStatus(v).None? <==> v != "in_progress" && v != "completed" && v != "canceled"
  {
  }

  datatype Sender = Apprenant | PatientIa | SystemSender

  function SenderValue(s: Sender): string {
    match s
    case Apprenant => "APPRENANT"
    case PatientIa => "PATIENT_IA"
    case SystemSender => "SYSTEM"
  }

  function ParseSender(v: string): (r: Option<Sender>)
    ensures r.Some? ==> SenderValue(r.value) == v
  {
    if v == "APPRENANT" then Some(Apprenant)
    else if v == "PATIENT_IA" then Some(PatientIa)
    else if v == "SYSTEM" then Some(SystemSender)
    else None
  }

  /** The stored value of every sender reads back as that sender; no other value is a sender. */
  lemma SenderRoundTrip(s: Sender, v: string)
    ensures ParseSender(SenderValue(s)) == Some(s)
    ensures ParseSender(v).None? <==> v != "APPRENANT" && v != "PATIENT_IA" && v != "SYSTEM"
  {
  }

  // ------------------------------------------------------------------ rows

  /** A session; `endTime` is `None` for SQL NULL. */
  datatype Session = Session(id: nat, caseId: nat, learner: nat, status: SessionStatus, startTime: nat, endTime: Option<nat>)

  datatype ChatMessage = ChatMessage(id: nat, sessionId: nat, sender: Sender, content: string, timestamp: nat)

  /** A session as created: in progress, started now, not ended. */
  function NewSession(id: nat, caseId: nat, learner: nat, now: nat): (s: Session)
    ensures s.id == id && s.caseId == caseId && s.learner == learner
    ensures s.status == InProgress && s.startTime == now && s.endTime.None?
  {
    Session(id, caseId, learner, InProgress, now, None)
  }

  /** The default session order, `-start_time`: newest first. */
  predicate NewestFirst(ss: seq<Session>) {
    forall i, j :: 0 <= i < j < |ss| ==> ss[i].startTime >= ss[j].startTime
  }

  // ---------------------------------------------------------------- tables

  /** The two tables, the next primary keys, and the clock. */
  datatype SimTables = SimTables(
    sessions: seq<Session>, messages: seq<ChatMessage>,
    nextSessionId: nat, nextMessageId: nat, clock: nat)

  const EmptySimTables: SimTables := SimTables([], [], 1, 1, 0)

  function SessionIds(sessions: seq<Session>): set<nat> {
    set s | s in sessions :: s.id
  }

  predicate InProgressFor(s: Session, learner: nat, caseId: nat) {
    s.learner == learner && s.caseId == caseId && s.status == InProgress
  }

  /**
   * Keys are distinct and below the next key, every message belongs to a
   * stored session, rows were created in clock order, and a learner has at
   * most one session in progress per case.
   */
  predicate SimValid(st: SimTables) {
    && 0 < st.nextSessionId && 0 < st.nextMessageId
    && DistinctBy(st.sessions, SessionKey)
    && DistinctBy(st.messages, MessageKey)
    && (forall s :: s in st.sessions ==> 0 < s.id < st.nextSessionId && s.startTime < st.clock)
    && (forall m :: m in st.messages ==> 0 < m.id < st.nextMessageId && m.timestamp < st.clock)
    && (forall m :: m in st.messages ==> m.sessionId in SessionIds(st.sessions))
    && IncreasingBy(st.sessions, StartOf)
    && IncreasingBy(st.messages, TimestampOf)
    && (forall i, j :: 0 <= i < j < |st.sessions| && st.sessions[i].status == InProgress && st.sessions[j].status == InProgress
          ==> st.sessions[i].learner != st.sessions[j].learner || st.sessions[i].caseId != st.sessions[j].caseId)
  }

  lemma EmptySimTablesValid()
    ensures SimValid(EmptySimTables)
  {
  }

  /** Every session refers to a stored case. */
  predicate SessionsReferenceCases(st: SimTables, cases: CaseTables) {
    forall s :: s in st.sessions ==> s.caseId in CaseIds(cases)
  }

  // -------------------------------------------------------------- deletion

  /** Deleting a session deletes its messages (the message foreign key cascades). */
  function DeleteSession(st: SimTables, id: nat): SimTables {
    st.(sessions := Filter(st.sessions, (s: Session) => s.id != id),
        messages := Filter(st.messages, (m: ChatMessage) => m.sessionId != id))
  }

  /** Deleting a user deletes their sessions and, through them, those sessions' messages. */
  function DeleteLearner(st: SimTables, learner: nat): SimTables {
    var gone := set s | s in st.sessions && s.learner == learner :: s.id;
    st.(sessions := Filter(st.sessions, (s: Session) => s.learner != learner),
        messages := Filter(st.messages, (m: ChatMessage) => m.sessionId !in gone))
  }

  function SessionKey(s: Session): nat { s.id }
  function StartOf(s: Session): nat { s.startTime }
  function MessageKey(m: ChatMessage): nat { m.id }
  function TimestampOf(m: ChatMessage): nat { m.timestamp }

  /** The keys strictly increase along the sequence. */
  predicate IncreasingBy<T>(s: seq<T>, key: T -> nat) {
    forall i, j :: 0 <= i < j < |s| ==> key(s[i]) < key(s[j])
  }

  /** A filter of an ordered sequence keeps its order. */
  lemma {:induction false} FilterKeepsOrder<T>(s: seq<T>, keep: T -> bool, key: T -> nat)
    requires IncreasingBy(s, key)
    ensures IncreasingBy(Filter(s, keep), key)
    decreases |s|
  {
    if s != [] {
      IncreasingTail(s, key);
      FilterKeepsOrder(s[1..], keep, key);
      if keep(s[0]) {
        var rest := Filter(s[1..], keep);
        forall y | y in rest ensures key(s[0]) < key(y) {
          var k :| 0 <= k < |s[1..]| && s[1..][k] == y;
          assert s[k + 1] == y;
        }
        IncreasingCons(s[0], rest, key);
        assert Filter(s, keep) == [s[0]] + rest;
      } else {
        assert Filter(s, keep) == Filter(s[1..], keep);
      }
    }
  }

  /** The tail of an ordered sequence is ordered. */
  lemma IncreasingTail<T>(s: seq<T>, key: T -> nat)
    requires s != [] && IncreasingBy(s, key)
    ensures IncreasingBy(s[1..], key)
  {
    var tail := s[1..];
    forall i, j | 0 <= i < j < |tail| ensures key(tail[i]) < key(tail[j]) {
      assert tail[i] == s[i + 1] && tail[j] == s[j + 1];
    }
  }

  /** An element below everything in an ordered sequence can go in front of it. */
  lemma IncreasingCons<T>(x: T, rest: seq<T>, key: T -> nat)
    requires IncreasingBy(rest, key) && forall y :: y in rest ==> key(x) < key(y)
    ensures IncreasingBy([x] + rest, key)
  {
    var r := [x] + rest;
    forall i, j | 0 <= i < j < |r| ensures key(r[i]) < key(r[j]) {
      assert r[j] == rest[j - 1];
      if i > 0 {
        assert r[i] == rest[i - 1];
      }
    }
  }


  /**
   * After deleting a session neither it nor any of its messages is left,
   * every other session and message is, and the tables stay valid.
   */
  lemma DeleteSessionCascades(st: SimTables, id: nat)
    requires SimValid(st)
    ensures var st' := DeleteSession(st, id);
      SimValid(st') && id !in SessionIds(st'.sessions)
      && (forall m :: m in st'.messages ==> m.sessionId != id)
      && (forall s :: s in st.sessions && s.id != id ==> s in st'.sessions)
      && (forall m :: m in st.messages && m.sessionId != id ==> m in st'.messages)
  {
    var st' := DeleteSession(st, id);
    DeletePreservesValid(st, (s: Session) => s.id != id, (m: ChatMessage) => m.sessionId != id);
  }

  /**
   * After deleting a user none of their sessions is left, nor any message
   * of one of them; everyone else's sessions and messages remain.
   */
  lemma DeleteLearnerCascades(st: SimTables, learner: nat)
    requires SimValid(st)
    ensures var st' := DeleteLearner(st, learner);
      SimValid(st')
      && (forall s :: s in st'.sessions ==> s.learner != learner)
      && (forall s :: s in st.sessions && s.learner != learner ==> s in st'.sessions)
      && (forall m, s :: m in st'.messages && s in st.sessions && s.id == m.sessionId ==> s.learner != learner)
      && (forall m, s :: m in st.messages && s in st.sessions && s.id == m.sessionId && s.learner != learner ==> m in st'.messages)
  {
    var gone := set s | s in st.sessions && s.learner == learner :: s.id;
    var st' := DeleteLearner(st, learner);
    assert forall s :: s in st.sessions && s.learner == learner ==> s.id in gone;
    forall m | m in st.messages && m.sessionId !in gone
      ensures exists s :: s in st.sessions && s.id == m.sessionId && s.learner != learner
    {
      var s :| s in st.sessions && s.id == m.sessionId;
    }
    DeletePreservesValid(st, (s: Session) => s.learner != learner, (m: ChatMessage) => m.sessionId !in gone);
    forall m, s | m in st.messages && s in st.sessions && s.id == m.sessionId && s.learner != learner
      ensures m in st'.messages
    {
      SameKeySameSession(st, s);
    }
  }

  /** Session keys are distinct, so a key names one session. */
  lemma SameKeySameSession(st: SimTables, s: Session)
    requires SimValid(st) && s in st.sessions
    ensures forall o :: o in st.sessions && o.id == s.id ==> o == s
  {
    forall o | o in st.sessions && o.id == s.id ensures o == s {
      var i :| 0 <= i < |st.sessions| && st.sessions[i] == s;
      var j :| 0 <= j < |st.sessions| && st.sessions[j] == o;
      assert SessionKey(st.sessions[i]) == SessionKey(st.sessions[j]);
    }
  }

  /**
   * Removing the sessions a filter rejects, together with every message of
   * a removed session (and possibly more messages), keeps the tables valid.
   */
  lemma DeletePreservesValid(st: SimTables, keepSession: Session -> bool, keepMessage: ChatMessage -> bool)
    requires SimValid(st)
    requires forall m :: m in st.messages && keepMessage(m) ==>
      exists s :: s in st.sessions && s.id == m.sessionId && keepSession(s)
    ensures SimValid(st.(sessions := Filter(st.sessions, keepSession), messages := Filter(st.messages, keepMessage)))
  {
    var ss := Filter(st.sessions, keepSession);
    var ms := Filter(st.messages, keepMessage);
    FilterDistinct(st.sessions, keepSession, SessionKey);
    FilterDistinct(st.messages, keepMessage, MessageKey);
    FilterKeepsOrder(st.sessions, keepSession, StartOf);
    FilterKeepsOrder(st.messages, keepMessage, TimestampOf);
    forall m | m in ms ensures m.sessionId in SessionIds(ss) {
      var s :| s in st.sessions && s.id == m.sessionId && keepSession(s);
    }
    forall i, j | 0 <= i < j < |ss| && ss[i].status == InProgress && ss[j].status == InProgress
      ensures ss[i].learner != ss[j].learner || ss[i].caseId != ss[j].caseId
    {
      var a :| 0 <= a < |st.sessions| && st.sessions[a] == ss[i];
      var b :| 0 <= b < |st.sessions| && st.sessions[b] == ss[j];
      assert StartOf(ss[i]) < StartOf(ss[j]);
      if b < a {
        assert StartOf(st.sessions[b]) < StartOf(st.sessions[a]);
      }
    }
  }

  /** Why a deletion was refused. */
  datatype ProtectedError = ProtectedError(caseId: nat)

  /**
   * Deleting a case while a session refers to it is refused (the session's
   * case foreign key protects); otherwise the case and its rows go.
   */
  function DeleteCaseProtected(cases: CaseTables, st: SimTables, id: nat): Result<CaseTables, ProtectedError> {
    if exists s :: s in st.sessions && s.caseId == id then Err(ProtectedError(id))
    else Ok(DeleteCase(cases, id))
  }

  /**
   * A case with a session cannot be deleted; any other case can, and the
   * sessions still all refer to stored cases afterwards.
   */
  lemma DeleteCaseProtectedMeaning(cases: CaseTables, st: SimTables, id: nat)
    requires Valid(cases) && SessionsReferenceCases(st, cases)
    ensures DeleteCaseProtected(cases, st, id).Err? <==> exists s :: s in st.sessions && s.caseId == id
    ensures DeleteCaseProtected(cases, st, id).Ok? ==> SessionsReferenceCases(st, DeleteCaseProtected(cases, st, id).value)
  {
    var r := DeleteCaseProtected(cases, st, id);
    if r.Ok? {
      CascadeDelete(cases, id);
      forall s | s in st.sessions ensures s.caseId in CaseIds(r.value) {
        var c :| c in cases.cases && c.id == s.caseId;
        assert c in r.value.cases;
      }
    }
  }
}
