/**
 * The simulation endpoints (backend/simulation/views.py): starting a
 * session on an approved case (reusing the learner's session in progress),
 * posting a learner message and storing the simulated patient's reply, and
 * listing and reading the learner's own sessions.
 *
 * Each endpoint is a function from the tables and the request to the new
 * tables and the response (status code and payload); `SimulationStore`
 * holds the tables and performs the writes in the order the views do.
 */
module SimViews {
  import opened Wrappers
  import opened Strings
  import opened Json
  import opened CaseModels
  import opened SimModels
  import opened SimSerializers
  import opened SimAgent

  // ------------------------------------------------------------ responses

  /** A serialized session: the session and its messages in order. */
  datatype SessionDetail = SessionDetail(session: Session, messages: seq<ChatMessage>)

  datatype Payload =
    | SessionPayload(detail: SessionDetail)
    | SessionListPayload(details: seq<SessionDetail>)
    | MessagePayload(message: ChatMessage)
    | ErrorPayload(error: string)
    | FieldErrorPayload(field: string, reason: CaseIdError)

  datatype Response = Response(status: nat, payload: Payload)

  const NotFoundMessage: string := "Session non trouvée ou non autorisée."

  function Detail(st: SimTables, s: Session): SessionDetail {
    SessionDetail(s, SessionMessages(st.messages, s.id))
  }

  // -------------------------------------------------------------- lookups

  /** `get_queryset().get(pk=id)`: the caller's session with that id, if any. */
  function FindOwned(ss: seq<Session>, user: nat, id: nat): (r: Option<Session>)
    ensures r.Some? ==> r.value in ss && r.value.id == id && r.value.learner == user
    ensures r.None? <==> forall s :: s in ss ==> !(s.id == id && s.learner == user)
    decreases |ss|
  {
    if ss == [] then None
    else if ss[0].id == id && ss[0].learner == user then Some(ss[0])
    else FindOwned(ss[1..], user, id)
  }

  /** The caller's sessions in progress on a case, earliest first in table order (the lookup of `get_or_create`). */
  function FirstInProgress(ss: seq<Session>, user: nat, caseId: nat): (r: Option<Session>)
    ensures r.Some? ==> r.value in ss && InProgressFor(r.value, user, caseId)
    ensures r.None? <==> forall s :: s in ss ==> !InProgressFor(s, user, caseId)
    decreases |ss|
  {
    if ss == [] then None
    else if InProgressFor(ss[0], user, caseId) then Some(ss[0])
    else FirstInProgress(ss[1..], user, caseId)
  }

  /** `.filter(...).first()` under the `-start_time` ordering: the most recently started matching session. */
  function LatestInProgress(ss: seq<Session>, user: nat, caseId: nat): (r: Option<Session>)
    ensures r.Some? ==> r.value in ss && InProgressFor(r.value, user, caseId)
    ensures r.None? <==> forall s :: s in ss ==> !InProgressFor(s, user, caseId)
    decreases |ss|
  {
    if ss == [] then None
    else if InProgressFor(ss[|ss| - 1], user, caseId) then Some(ss[|ss| - 1])
    else LatestInProgress(ss[..|ss| - 1], user, caseId)
  }

  /** In valid tables a learner has at most one session in progress per case. */
  lemma InProgressUnique(st: SimTables, a: Session, b: Session, user: nat, caseId: nat)
    requires SimValid(st)
    requires a in st.sessions && b in st.sessions && InProgressFor(a, user, caseId) && InProgressFor(b, user, caseId)
    ensures a == b
  {
    var i :| 0 <= i < |st.sessions| && st.sessions[i] == a;
    var j :| 0 <= j < |st.sessions| && st.sessions[j] == b;
  }

  // ---------------------------------------------------------------- start

  /** A new session in progress for the caller on the case, answered with 201. */
  function CreateSession(st: SimTables, caseId: nat, user: nat): (SimTables, Response) {
    var s := NewSession(st.nextSessionId, caseId, user, st.clock);
    var st' := st.(sessions := st.sessions + [s], nextSessionId := st.nextSessionId + 1, clock := st.clock + 1);
    (st', Response(201, SessionPayload(Detail(st', s))))
  }

  /** `SimulationViewSet.start_session`: validate, then get the session in progress or create it. */
  function StartSpec(st: SimTables, cases: CaseTables, user: nat, caseId: Field<JsonValue>): (SimTables, Response) {
    match ValidateStart(cases, caseId)
    case Err(e) => (st, Response(400, FieldErrorPayload("case_id", e)))
    case Ok(id) =>
      match FirstInProgress(st.sessions, user, id)
      case Some(s) => (st, Response(200, SessionPayload(Detail(st, s))))
      case None => CreateSession(st, id, user)
  }

  /** `StartSimulationView.create`: validate, then return the newest session in progress or create one. */
  function CreateSpec(st: SimTables, cases: CaseTables, user: nat, caseId: Field<JsonValue>): (SimTables, Response) {
    match ValidateStart(cases, caseId)
    case Err(e) => (st, Response(400, FieldErrorPayload("case_id", e)))
    case Ok(id) =>
      match LatestInProgress(st.sessions, user, id)
      case Some(s) => (st, Response(200, SessionPayload(Detail(st, s))))
      case None => CreateSession(st, id, user)
  }

  /**
   * Starting answers 400 on an invalid `case_id` and changes nothing; it
   * answers 200 with the caller's session in progress on that case when
   * there is one and changes nothing; otherwise it adds exactly one new
   * session in progress for the caller and answers 201. Only an approved
   * stored case gets past validation.
   */
  lemma StartSpecMeaning(st: SimTables, cases: CaseTables, user: nat, caseId: Field<JsonValue>)
    requires SimValid(st)
    ensures var (st', r) := StartSpec(st, cases, user, caseId);
      && (r.status == 400 <==> ValidateStart(cases, caseId).Err?)
      && (r.status == 400 ==> st' == st && r.payload == FieldErrorPayload("case_id", ValidateStart(cases, caseId).error))
      && (r.status != 400 ==> r.status in {200, 201} && ApprovedCaseExists(cases, ValidateStart(cases, caseId).value))
      && (r.status == 200 ==> (st' == st && r.payload.SessionPayload? && r.payload.detail.session in st.sessions
            && InProgressFor(r.payload.detail.session, user, ValidateStart(cases, caseId).value)))
      && (r.status == 201 ==>
            (forall s :: s in st.sessions ==> !InProgressFor(s, user, ValidateStart(cases, caseId).value))
            && st'.sessions == st.sessions + [NewSession(st.nextSessionId, ValidateStart(cases, caseId).value, user, st.clock)]
            && st'.messages == st.messages
            && r.payload == SessionPayload(SessionDetail(st'.sessions[|st.sessions|], [])))
  {
    var (st', r) := StartSpec(st, cases, user, caseId);
    var v := ValidateStart(cases, caseId);
    ValidateStartAccepts(cases, caseId);
    if r.status == 201 {
      var s := st'.sessions[|st.sessions|];
      assert Detail(st', s).messages == [] by {
        NewSessionHasNoMessages(st);
        EmptyFilterWhenAbsent(st'.messages, s.id);
      }
    }
  }

  /** A session not yet used has no messages, provided every message belongs to an earlier session. */
  lemma {:induction false} EmptyFilterWhenAbsent(ms: seq<ChatMessage>, id: nat)
    requires forall m :: m in ms ==> m.sessionId != id
    ensures SessionMessages(ms, id) == []
    decreases |ms|
  {
    if ms != [] {
      assert ms[0] in ms;
      assert forall m :: m in ms[1..] ==> m in ms;
      EmptyFilterWhenAbsent(ms[1..], id);
    }
  }

  /** A new session's key is fresh, so it has no messages in valid tables. */
  lemma NewSessionHasNoMessages(st: SimTables)
    requires SimValid(st)
    ensures forall m :: m in st.messages ==> m.sessionId != st.nextSessionId
  {
    forall m | m in st.messages ensures m.sessionId != st.nextSessionId {
      var s :| s in st.sessions && s.id == m.sessionId;
    }
  }

  /** Creating a session where the caller has none in progress on that case keeps the tables valid. */
  lemma CreateSessionValid(st: SimTables, caseId: nat, user: nat)
    requires SimValid(st)
    requires forall s :: s in st.sessions ==> !InProgressFor(s, user, caseId)
    ensures SimValid(CreateSession(st, caseId, user).0)
  {
    var st' := CreateSession(st, caseId, user).0;
    var ss := st'.sessions;
    var n := |st.sessions|;
    assert forall k :: 0 <= k < n ==> ss[k] == st.sessions[k];
    forall x | x in ss ensures 0 < x.id < st'.nextSessionId && x.startTime < st'.clock {
      if x != ss[n] {
        assert x in st.sessions;
      }
    }
    forall i, j | 0 <= i < j < |ss| ensures SessionKey(ss[i]) != SessionKey(ss[j]) && StartOf(ss[i]) < StartOf(ss[j]) {
      if j == n {
        assert ss[i] in st.sessions;
      }
    }
    forall m | m in st'.messages ensures m.sessionId in SessionIds(ss) {
      var s :| s in st.sessions && s.id == m.sessionId;
      assert s in ss;
    }
    forall i, j | 0 <= i < j < |ss| && ss[i].status == InProgress && ss[j].status == InProgress
      ensures ss[i].learner != ss[j].learner || ss[i].caseId != ss[j].caseId
    {
      if j == n {
        assert ss[i] in st.sessions;
        assert !InProgressFor(ss[i], user, caseId);
      }
    }
  }

  /** Starting keeps the tables valid, and sessions keep referring to stored cases. */
  lemma StartPreservesValid(st: SimTables, cases: CaseTables, user: nat, caseId: Field<JsonValue>)
    requires SimValid(st)
    ensures SimValid(StartSpec(st, cases, user, caseId).0)
    ensures SessionsReferenceCases(st, cases) ==> SessionsReferenceCases(StartSpec(st, cases, user, caseId).0, cases)
  {
    var v := ValidateStart(cases, caseId);
    ValidateStartAccepts(cases, caseId);
    if v.Ok? && FirstInProgress(st.sessions, user, v.value).None? {
      CreateSessionValid(st, v.value, user);
    }
  }

  /**
   * Starting twice in a row on the same case gives the session created
   * (or found) the first time, with 200, and changes nothing the second
   * time: a learner never gets two sessions in progress on one case.
   */
  lemma StartTwiceReuses(st: SimTables, cases: CaseTables, user: nat, caseId: Field<JsonValue>)
    requires SimValid(st)
    ensures var (st1, r1) := StartSpec(st, cases, user, caseId);
      r1.status != 400 ==>
        r1.payload.SessionPayload? &&
        StartSpec(st1, cases, user, caseId) == (st1, Response(200, SessionPayload(Detail(st1, r1.payload.detail.session))))
  {
    var (st1, r1) := StartSpec(st, cases, user, caseId);
    StartSpecMeaning(st, cases, user, caseId);
    StartPreservesValid(st, cases, user, caseId);
    if r1.status != 400 {
      var id := ValidateStart(cases, caseId).value;
      var s := r1.payload.detail.session;
      assert s in st1.sessions && InProgressFor(s, user, id);
      var found := FirstInProgress(st1.sessions, user, id);
      InProgressUnique(st1, found.value, s, user, id);
      if r1.status == 201 {
        assert Detail(st1, s) == r1.payload.detail;
      }
    }
  }

  /** In valid tables both start endpoints behave the same. */
  lemma CreateAgreesWithStart(st: SimTables, cases: CaseTables, user: nat, caseId: Field<JsonValue>)
    requires SimValid(st)
    ensures CreateSpec(st, cases, user, caseId) == StartSpec(st, cases, user, caseId)
  {
    var v := ValidateStart(cases, caseId);
    if v.Ok? {
      var a := FirstInProgress(st.sessions, user, v.value);
      var b := LatestInProgress(st.sessions, user, v.value);
      if a.Some? {
        InProgressUnique(st, a.value, b.value, user, v.value);
      }
    }
  }

  // ----------------------------------------------------------------- post

  /** The two message endpoints: the viewset's `message` action and the stand-alone view. */
  datatype MessageRoute = SessionAction | MessageView

  function ContentRequiredMessage(route: MessageRoute): string {
    match route
    case SessionAction => "Le champ 'content' est requis."
    case MessageView => "Le contenu du message est requis."
  }

  /** The 500 body: the action hides the agent's error, the stand-alone view shows it. */
  function AgentFailureMessage(route: MessageRoute, e: string): string {
    match route
    case SessionAction => "Une erreur est survenue lors de la génération de la réponse de l'IA."
    case MessageView => "Erreur lors de la génération de la réponse de l'IA : " + e
  }

  /** `ChatMessage.objects.create(...)`: the next key, the clock's reading. */
  function AppendMessage(st: SimTables, sessionId: nat, sender: Sender, content: string): (st': SimTables)
    ensures st'.sessions == st.sessions && st'.nextSessionId == st.nextSessionId
    ensures st'.messages == st.messages + [ChatMessage(st.nextMessageId, sessionId, sender, content, st.clock)]
  {
    st.(messages := st.messages + [ChatMessage(st.nextMessageId, sessionId, sender, content, st.clock)],
        nextMessageId := st.nextMessageId + 1, clock := st.clock + 1)
  }

  /** Adding a message to a stored session keeps the tables valid. */
  lemma AppendMessageValid(st: SimTables, sessionId: nat, sender: Sender, content: string)
    requires SimValid(st) && sessionId in SessionIds(st.sessions)
    ensures SimValid(AppendMessage(st, sessionId, sender, content))
  {
    var ms := AppendMessage(st, sessionId, sender, content).messages;
    var n := |st.messages|;
    assert forall k :: 0 <= k < n ==> ms[k] == st.messages[k];
    forall x | x in ms ensures 0 < x.id < st.nextMessageId + 1 && x.timestamp < st.clock + 1 {
      if x != ms[n] {
        assert x in st.messages;
      }
    }
    forall i, j | 0 <= i < j < |ms| ensures MessageKey(ms[i]) != MessageKey(ms[j]) && TimestampOf(ms[i]) < TimestampOf(ms[j]) {
      if j == n {
        assert ms[i] in st.messages;
      }
    }
  }

  /** The stored case a session refers to; the agent cannot be built without it. */
  function CaseById(cases: seq<ClinicalCase>, id: nat): (r: Option<ClinicalCase>)
    ensures r.Some? ==> r.value in cases && r.value.id == id
    ensures r.None? ==> forall c :: c in cases ==> c.id != id
    decreases |cases|
  {
    if cases == [] then None
    else if cases[0].id == id then Some(cases[0])
    else CaseById(cases[1..], id)
  }

  const MissingCaseError: string := "ClinicalCase matching query does not exist."

  /** The prompt the agent is given, built once the learner's message is stored. */
  function PostPrompt(st1: SimTables, cases: CaseTables, c: ClinicalCase, s: Session, userMessage: string): PromptVars {
    PromptFor(cases, c, st1.messages, s.id, userMessage)
  }

  /** Building the agent for the session's case and asking it for a reply. */
  function Reply(st1: SimTables, cases: CaseTables, s: Session, userMessage: string, llm: PromptVars -> Result<string, string>): Result<string, string> {
    match CaseById(cases.cases, s.caseId)
    case None => Err(MissingCaseError)
    case Some(c) => GenerateResponse(llm, PostPrompt(st1, cases, c, s, userMessage))
  }

  /** `post_message` (and `PostMessageView.post`). */
  function PostSpec(st: SimTables, cases: CaseTables, user: nat, route: MessageRoute, sessionId: nat,
                    content: Field<string>, llm: PromptVars -> Result<string, string>): (SimTables, Response)
  {
    match FindOwned(st.sessions, user, sessionId)
    case None => (st, Response(404, ErrorPayload(NotFoundMessage)))
    case Some(s) =>
      if !Truthy(content) then (st, Response(400, ErrorPayload(ContentRequiredMessage(route))))
      else
        var st1 := AppendMessage(st, s.id, Apprenant, content.value);
        match Reply(st1, cases, s, content.value, llm)
        case Err(e) => (st1, Response(500, ErrorPayload(AgentFailureMessage(route, e))))
        case Ok(reply) =>
          var st2 := AppendMessage(st1, s.id, PatientIa, reply);
          (st2, Response(201, MessagePayload(st2.messages[|st2.messages| - 1])))
  }

  /**
   * Posting to a session that does not exist or is someone else's answers
   * 404, and posting without content answers 400; neither stores anything.
   */
  lemma PostRefusals(st: SimTables, cases: CaseTables, user: nat, route: MessageRoute, sessionId: nat,
                     content: Field<string>, llm: PromptVars -> Result<string, string>)
    ensures var (st', r) := PostSpec(st, cases, user, route, sessionId, content, llm);
      && (r.status == 404 <==> forall s :: s in st.sessions ==> !(s.id == sessionId && s.learner == user))
      && (r.status == 404 ==> st' == st && r.payload == ErrorPayload(NotFoundMessage))
      && (r.status == 400 <==> (exists s :: s in st.sessions && s.id == sessionId && s.learner == user) && !Truthy(content))
      && (r.status == 400 ==> st' == st && r.payload == ErrorPayload(ContentRequiredMessage(route)))
  {
  }

  /**
   * With an owned session and content, the learner's message is stored
   * first. If the agent fails nothing more is stored and 500 is answered;
   * otherwise the patient's reply is stored right after it and answered
   * with 201. No session changes.
   */
  lemma PostStores(st: SimTables, cases: CaseTables, user: nat, route: MessageRoute, sessionId: nat,
                   content: Field<string>, llm: PromptVars -> Result<string, string>)
    requires (exists s :: s in st.sessions && s.id == sessionId && s.learner == user) && Truthy(content)
    ensures var (st', r) := PostSpec(st, cases, user, route, sessionId, content, llm);
      var learner := ChatMessage(st.nextMessageId, sessionId, Apprenant, content.value, st.clock);
      && st'.sessions == st.sessions
      && r.status in {201, 500}
      && (r.status == 500 ==> st'.messages == st.messages + [learner] && r.payload.ErrorPayload?)
      && (r.status == 201 ==>
            |st'.messages| == |st.messages| + 2 && st'.messages[..|st.messages| + 1] == st.messages + [learner]
            && r.payload == MessagePayload(st'.messages[|st.messages| + 1])
            && r.payload.message.sender == PatientIa && r.payload.message.sessionId == sessionId)
  {
    var (st', r) := PostSpec(st, cases, user, route, sessionId, content, llm);
    var s := FindOwned(st.sessions, user, sessionId).value;
    var st1 := AppendMessage(st, s.id, Apprenant, content.value);
    if r.status == 201 {
      assert st'.messages[..|st.messages| + 1] == st1.messages;
    }
  }

  /**
   * The reply comes from the model's answer to a prompt whose history is
   * the session's conversation including the message just posted, as its
   * last, human entry; the reply is that answer with its surrounding
   * whitespace removed.
   */
  lemma PostPromptSeesMessage(st: SimTables, cases: CaseTables, user: nat, route: MessageRoute, sessionId: nat,
                              content: Field<string>, llm: PromptVars -> Result<string, string>, c: ClinicalCase)
    requires (exists s :: s in st.sessions && s.id == sessionId && s.learner == user) && Truthy(content)
    requires c in cases.cases && c.id == FindOwned(st.sessions, user, sessionId).value.caseId
    requires DistinctBy(cases.cases, (x: ClinicalCase) => x.id)
    ensures var s := FindOwned(st.sessions, user, sessionId).value;
      var st1 := AppendMessage(st, sessionId, Apprenant, content.value);
      var p := PostPrompt(st1, cases, c, s, content.value);
      var h := p.chatHistory;
      && h == ChatHistory(SessionMessages(st.messages, sessionId)) + [Human(content.value)]
      && p.userMessage == content.value
      && (llm(p).Ok? <==> PostSpec(st, cases, user, route, sessionId, content, llm).1.status == 201)
      && (llm(p).Ok? ==> PostSpec(st, cases, user, route, sessionId, content, llm).1.payload.message.content == Strip(llm(p).value))
  {
    var s := FindOwned(st.sessions, user, sessionId).value;
    PostCaseFound(cases, s.caseId, c);
    HistoryAfterPost(st, sessionId, content.value);
  }

  /** With distinct case ids, the lookup finds the one case with the session's case id. */
  lemma PostCaseFound(cases: CaseTables, id: nat, c: ClinicalCase)
    requires c in cases.cases && c.id == id
    requires DistinctBy(cases.cases, (x: ClinicalCase) => x.id)
    ensures CaseById(cases.cases, id) == Some(c)
  {
    var found := CaseById(cases.cases, id);
    var i :| 0 <= i < |cases.cases| && cases.cases[i] == c;
    var j :| 0 <= j < |cases.cases| && cases.cases[j] == found.value;
    assert cases.cases[i].id == cases.cases[j].id;
    assert i == j;
  }

  /** After the learner's message is stored, the session's history ends with it. */
  lemma HistoryAfterPost(st: SimTables, sessionId: nat, content: string)
    ensures ChatHistory(SessionMessages(AppendMessage(st, sessionId, Apprenant, content).messages, sessionId))
         == ChatHistory(SessionMessages(st.messages, sessionId)) + [Human(content)]
  {
    var m := ChatMessage(st.nextMessageId, sessionId, Apprenant, content, st.clock);
    FilterAppend(st.messages, m, (x: ChatMessage) => x.sessionId == sessionId);
    assert SessionMessages(st.messages + [m], sessionId) == SessionMessages(st.messages, sessionId) + [m];
    ChatHistoryAppend(SessionMessages(st.messages, sessionId), m);
  }

  /** Posting keeps the tables valid. */
  lemma PostPreservesValid(st: SimTables, cases: CaseTables, user: nat, route: MessageRoute, sessionId: nat,
                           content: Field<string>, llm: PromptVars -> Result<string, string>)
    requires SimValid(st)
    ensures SimValid(PostSpec(st, cases, user, route, sessionId, content, llm).0)
  {
    var found := FindOwned(st.sessions, user, sessionId);
    if found.Some? && Truthy(content) {
      var s := found.value;
      assert s.id in SessionIds(st.sessions);
      var st1 := AppendMessage(st, s.id, Apprenant, content.value);
      AppendMessageValid(st, s.id, Apprenant, content.value);
      match Reply(st1, cases, s, content.value, llm)
      case Err(_) =>
      case Ok(reply) =>
        AppendMessageValid(st1, s.id, PatientIa, reply);
    }
  }

  // ------------------------------------------------------- list, retrieve

  function Reversed<T>(s: seq<T>): (r: seq<T>)
    ensures |r| == |s| && forall k :: 0 <= k < |s| ==> r[k] == s[|s| - 1 - k]
    decreases |s|
  {
    if s == [] then [] else Reversed(s[1..]) + [s[0]]
  }

  /** `get_queryset`: the caller's sessions. */
  function OwnedSessions(st: SimTables, user: nat): seq<Session> {
    Filter(st.sessions, (s: Session) => s.learner == user)
  }

  /** The sessions `list` shows. */
  function ListedSessions(st: SimTables, user: nat): seq<Session> {
    Reversed(OwnedSessions(st, user))
  }

  /** `list`: the caller's sessions, most recently started first, each with its messages. */
  function ListSpec(st: SimTables, user: nat): (r: Response)
    ensures r.status == 200 && r.payload.SessionListPayload?
    ensures |r.payload.details| == |ListedSessions(st, user)|
    ensures forall k :: 0 <= k < |ListedSessions(st, user)| ==> r.payload.details[k] == Detail(st, ListedSessions(st, user)[k])
  {
    var ss := ListedSessions(st, user);
    Response(200, SessionListPayload(seq(|ss|, k requires 0 <= k < |ss| => Detail(st, ss[k]))))
  }

  /** Reversing a sequence in increasing start order puts the newest first. */
  lemma ReversedNewestFirst(s: seq<Session>)
    requires IncreasingBy(s, StartOf)
    ensures NewestFirst(Reversed(s))
  {
    var r := Reversed(s);
    forall i, j | 0 <= i < j < |r| ensures r[i].startTime >= r[j].startTime {
      assert StartOf(s[|s| - 1 - j]) < StartOf(s[|s| - 1 - i]);
    }
  }

  /** The list holds exactly the caller's sessions, newest first. */
  lemma ListMeaning(st: SimTables, user: nat, s: Session)
    requires SimValid(st)
    ensures s in ListedSessions(st, user) <==> s in st.sessions && s.learner == user
    ensures NewestFirst(ListedSessions(st, user))
  {
    ListedMembership(st, user, s);
    FilterKeepsOrder(st.sessions, (x: Session) => x.learner == user, StartOf);
    ReversedNewestFirst(OwnedSessions(st, user));
  }

  /** A session is listed exactly when it is one of the caller's. */
  lemma ListedMembership(st: SimTables, user: nat, s: Session)
    ensures s in ListedSessions(st, user) <==> s in st.sessions && s.learner == user
  {
    var owned := OwnedSessions(st, user);
    var ss := ListedSessions(st, user);
    if s in ss {
      var k :| 0 <= k < |ss| && ss[k] == s;
      assert s == owned[|owned| - 1 - k];
    }
    if s in st.sessions && s.learner == user {
      var i :| 0 <= i < |st.sessions| && st.sessions[i] == s;
      assert s in owned;
      var k :| 0 <= k < |owned| && owned[k] == s;
      assert ss[|owned| - 1 - k] == s;
    }
  }

  /** `retrieve`: the caller's session with that id, or 404. */
  function RetrieveSpec(st: SimTables, user: nat, id: nat): Response {
    match FindOwned(st.sessions, user, id)
    case Some(s) => Response(200, SessionPayload(Detail(st, s)))
    case None => Response(404, ErrorPayload(NotFoundMessage))
  }

  /**
   * A session is shown only to its learner; someone else's session gets
   * the same 404 as a key that does not exist.
   */
  lemma RetrieveMeaning(st: SimTables, user: nat, id: nat)
    requires SimValid(st)
    ensures var r := RetrieveSpec(st, user, id);
      && (r.status == 200 <==> exists s :: s in st.sessions && s.id == id && s.learner == user)
      && (r.status == 200 ==> (r.payload.detail.session in st.sessions && r.payload.detail.session.id == id
            && r.payload.detail.session.learner == user))
      && (r.status != 200 ==> r == Response(404, ErrorPayload(NotFoundMessage)))
  {
  }

  // ---------------------------------------------------------------- store

  /** The session and message tables, written by the endpoints. */
  class SimulationStore {
    var tables: SimTables

    constructor()
      ensures tables == EmptySimTables && SimValid(tables)
    {
      tables := EmptySimTables;
    }

    /** `start_session`. */
    method StartSession(cases: CaseTables, user: nat, caseId: Field<JsonValue>) returns (r: Response)
      requires SimValid(tables)
      modifies this
      ensures SimValid(tables)
      ensures (tables, r) == StartSpec(old(tables), cases, user, caseId)
    {
      ghost var spec := StartSpec(tables, cases, user, caseId);
      assert SimValid(spec.0) by {
        StartPreservesValid(tables, cases, user, caseId);
      }
      var v := ValidateStart(cases, caseId);
      if v.Err? {
        r := Response(400, FieldErrorPayload("case_id", v.error));
      } else {
        var existing := FirstInProgress(tables.sessions, user, v.value);
        if existing.Some? {
          r := Response(200, SessionPayload(Detail(tables, existing.value)));
        } else {
          var s := NewSession(tables.nextSessionId, v.value, user, tables.clock);
          tables := tables.(sessions := tables.sessions + [s], nextSessionId := tables.nextSessionId + 1, clock := tables.clock + 1);
          r := Response(201, SessionPayload(Detail(tables, s)));
        }
      }
      assert (tables, r) == spec;
    }

    /** `StartSimulationView.create`. */
    method StartSimulation(cases: CaseTables, user: nat, caseId: Field<JsonValue>) returns (r: Response)
      requires SimValid(tables)
      modifies this
      ensures SimValid(tables)
      ensures (tables, r) == CreateSpec(old(tables), cases, user, caseId)
    {
      ghost var spec := CreateSpec(tables, cases, user, caseId);
      assert SimValid(spec.0) by {
        CreateAgreesWithStart(tables, cases, user, caseId);
        StartPreservesValid(tables, cases, user, caseId);
      }
      var v := ValidateStart(cases, caseId);
      if v.Err? {
        r := Response(400, FieldErrorPayload("case_id", v.error));
      } else {
        var existing := LatestInProgress(tables.sessions, user, v.value);
        if existing.Some? {
          r := Response(200, SessionPayload(Detail(tables, existing.value)));
        } else {
          var s := NewSession(tables.nextSessionId, v.value, user, tables.clock);
          tables := tables.(sessions := tables.sessions + [s], nextSessionId := tables.nextSessionId + 1, clock := tables.clock + 1);
          r := Response(201, SessionPayload(Detail(tables, s)));
        }
      }
      assert (tables, r) == spec;
    }

    /** `post_message` and `PostMessageView.post`: store the learner's message, ask the agent, store its reply. */
    method PostMessage(cases: CaseTables, user: nat, route: MessageRoute, sessionId: nat,
                       content: Field<string>, llm: PromptVars -> Result<string, string>) returns (r: Response)
      requires SimValid(tables)
      modifies this
      ensures SimValid(tables)
      ensures (tables, r) == PostSpec(old(tables), cases, user, route, sessionId, content, llm)
    {
      ghost var spec := PostSpec(tables, cases, user, route, sessionId, content, llm);
      assert SimValid(spec.0) by {
        PostPreservesValid(tables, cases, user, route, sessionId, content, llm);
      }
      var found := FindOwned(tables.sessions, user, sessionId);
      if found.None? {
        r := Response(404, ErrorPayload(NotFoundMessage));
      } else if !Truthy(content) {
        r := Response(400, ErrorPayload(ContentRequiredMessage(route)));
      } else {
        var s := found.value;
        tables := AppendMessage(tables, s.id, Apprenant, content.value);
        var c := CaseById(cases.cases, s.caseId);
        if c.None? {
          r := Response(500, ErrorPayload(AgentFailureMessage(route, MissingCaseError)));
        } else {
          var history := GetChatHistoryMessages(tables.messages, s.id);
          var prompt := PromptFor(cases, c.value, tables.messages, s.id, content.value).(chatHistory := history);
          assert prompt == PostPrompt(tables, cases, c.value, s, content.value);
          var answer := llm(prompt);
          if answer.Err? {
            r := Response(500, ErrorPayload(AgentFailureMessage(route, answer.error)));
          } else {
            tables := AppendMessage(tables, s.id, PatientIa, Strip(answer.value));
            r := Response(201, MessagePayload(tables.messages[|tables.messages| - 1]));
          }
        }
      }
      assert (tables, r) == spec;
    }
  }
}
