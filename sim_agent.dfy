/**
 * The simulated patient (backend/simulation/agent/simulator.py): the
 * conversation history handed to the language model, the prompt variables
 * built from the case, and the clean-up of the model's answer.
 *
 * The language model is a function parameter from the prompt variables to
 * an answer or an error text.
 */
module SimAgent {
  import opened Wrappers
  import opened Strings
  import opened CaseModels
  import opened SimModels

  // -------------------------------------------------------------- history

  /** A history entry: something the learner said, or something the model said. */
  datatype HistoryEntry = Human(content: string) | Ai(content: string)

  /** A stored message as a history entry: the learner's messages are human, all others (system messages too) are the model's. */
  function EntryOf(m: ChatMessage): (e: HistoryEntry)
    ensures e.content == m.content
    ensures e.Human? <==> m.sender == Apprenant
  {
    if m.sender == Apprenant then Human(m.content) else Ai(m.content)
  }

  /** A session's messages, in the order of the log. */
  function SessionMessages(log: seq<ChatMessage>, sessionId: nat): seq<ChatMessage> {
    Filter(log, (m: ChatMessage) => m.sessionId == sessionId)
  }

  /**
   * In a log kept in timestamp order, a session's messages are exactly the
   * log's messages of that session, in timestamp order: what the query
   * ordered by `timestamp` returns.
   */
  lemma SessionMessagesMeaning(log: seq<ChatMessage>, sessionId: nat, m: ChatMessage)
    requires IncreasingBy(log, TimestampOf)
    ensures IncreasingBy(SessionMessages(log, sessionId), TimestampOf)
    ensures m in SessionMessages(log, sessionId) <==> m in log && m.sessionId == sessionId
  {
    FilterKeepsOrder(log, (x: ChatMessage) => x.sessionId == sessionId, TimestampOf);
    var ms := SessionMessages(log, sessionId);
    if m in ms {
      var k :| 0 <= k < |ms| && ms[k] == m;
    }
    if m in log && m.sessionId == sessionId {
      var k :| 0 <= k < |log| && log[k] == m;
    }
  }

  /** A message added at the end of the log comes last among its session's messages. */
  lemma {:induction false} FilterAppend<T>(s: seq<T>, x: T, keep: T -> bool)
    ensures Filter(s + [x], keep) == Filter(s, keep) + (if keep(x) then [x] else [])
    decreases |s|
  {
    if s == [] {
      assert [x][1..] == [];
    } else {
      assert (s + [x])[1..] == s[1..] + [x];
      FilterAppend(s[1..], x, keep);
    }
  }

  /** The conversation as the model sees it: one entry per message, in order. */
  function ChatHistory(ms: seq<ChatMessage>): seq<HistoryEntry> {
    seq(|ms|, k requires 0 <= k < |ms| => EntryOf(ms[k]))
  }

  /**
   * The history has one entry per message, in the same order, with the
   * content unchanged; an entry is human exactly when the learner sent it.
   */
  lemma ChatHistoryMeaning(ms: seq<ChatMessage>)
    ensures var h := ChatHistory(ms);
      |h| == |ms|
      && (forall k :: 0 <= k < |ms| ==> h[k].content == ms[k].content)
      && (forall k :: 0 <= k < |ms| ==> (h[k].Human? <==> ms[k].sender == Apprenant))
      && (forall k :: 0 <= k < |ms| && ms[k].sender == SystemSender ==> h[k].Ai?)
  {
  }

  /** The history of one more message is the history with its entry appended. */
  lemma ChatHistoryAppend(ms: seq<ChatMessage>, m: ChatMessage)
    ensures ChatHistory(ms + [m]) == ChatHistory(ms) + [EntryOf(m)]
  {
  }

  /** The history of a longer prefix is the shorter prefix's history with one more entry. */
  lemma ChatHistoryExtend(ms: seq<ChatMessage>, i: nat)
    requires i < |ms|
    ensures ChatHistory(ms[..i + 1]) == ChatHistory(ms[..i]) + [EntryOf(ms[i])]
  {
    assert ms[..i + 1] == ms[..i] + [ms[i]];
    ChatHistoryAppend(ms[..i], ms[i]);
  }

  /** `_get_chat_history_messages`. */
  method GetChatHistoryMessages(log: seq<ChatMessage>, sessionId: nat) returns (history: seq<HistoryEntry>)
    ensures history == ChatHistory(SessionMessages(log, sessionId))
  {
    var ms := SessionMessages(log, sessionId);
    history := [];
    var i := 0;
    while i < |ms|
      invariant 0 <= i <= |ms|
      invariant history == ChatHistory(ms[..i])
    {
      ChatHistoryExtend(ms, i);
      if ms[i].sender == Apprenant {
        history := history + [Human(ms[i].content)];
      } else {
        history := history + [Ai(ms[i].content)];
      }
      assert history == ChatHistory(ms[..i + 1]);
      i := i + 1;
    }
    assert ms[..i] == ms;
  }

  // --------------------------------------------------------------- prompt

  const NothingListed: string := "Aucun"
  const PatientPersona: string := "Normal"
  const InitialStatement: string := "Bonjour docteur, je ne me sens pas très bien."

  /** Python's `s or default` on text. */
  function OrDefault(s: string, default: string): string {
    if s == "" then default else s
  }

  /** The variables the prompt is filled with. */
  datatype PromptVars = PromptVars(
    caseTitle: string, caseSummary: string, symptomsList: string, historyList: string,
    patientPersona: string, initialStatement: string, chatHistory: seq<HistoryEntry>, userMessage: string)

  /** The prompt variables of `generate_response` for a case, a session and the learner's message. */
  function PromptFor(t: CaseTables, c: ClinicalCase, log: seq<ChatMessage>, sessionId: nat, userMessage: string): PromptVars {
    PromptVars(
      c.caseTitle,
      OrDefault(c.caseSummary, ""),
      OrDefault(Join(SymptomNames(SymptomsOf(t, c.id)), ", "), NothingListed),
      OrDefault(Join(HistoryDescriptions(HistoryOf(t, c.id)), ", "), NothingListed),
      PatientPersona,
      InitialStatement,
      ChatHistory(SessionMessages(log, sessionId)),
      userMessage)
  }

  /**
   * The symptom and history lists read "Aucun" when the case has no such
   * row, and otherwise (names being non-empty) hold every name with a
   * comma between neighbours; persona and opening line are fixed; the
   * history is the session's.
   */
  lemma PromptForMeaning(t: CaseTables, c: ClinicalCase, log: seq<ChatMessage>, sessionId: nat, userMessage: string)
    ensures var p := PromptFor(t, c, log, sessionId, userMessage);
      && (SymptomsOf(t, c.id) == [] ==> p.symptomsList == NothingListed)
      && (HistoryOf(t, c.id) == [] ==> p.historyList == NothingListed)
      && p.caseTitle == c.caseTitle && p.caseSummary == c.caseSummary
      && p.patientPersona == "Normal" && p.initialStatement == InitialStatement
      && p.chatHistory == ChatHistory(SessionMessages(log, sessionId)) && p.userMessage == userMessage
    ensures var names := SymptomNames(SymptomsOf(t, c.id));
      names != [] && (forall k :: 0 <= k < |names| ==> names[k] != "") ==>
        |PromptFor(t, c, log, sessionId, userMessage).symptomsList| == TotalLength(names) + 2 * (|names| - 1)
        && PromptFor(t, c, log, sessionId, userMessage).symptomsList == Join(names, ", ")
    ensures var descs := HistoryDescriptions(HistoryOf(t, c.id));
      descs != [] && (forall k :: 0 <= k < |descs| ==> descs[k] != "") ==>
        PromptFor(t, c, log, sessionId, userMessage).historyList == Join(descs, ", ")
  {
    var names := SymptomNames(SymptomsOf(t, c.id));
    var descs := HistoryDescriptions(HistoryOf(t, c.id));
    JoinLength(names, ", ");
    if names != [] {
      JoinEmptyIff(names, ", ");
    }
    if descs != [] {
      JoinEmptyIff(descs, ", ");
    }
  }

  // ------------------------------------------------------------- response

  /** `generate_response`: the model's answer with surrounding whitespace removed, or the model's error. */
  function GenerateResponse(llm: PromptVars -> Result<string, string>, prompt: PromptVars): (r: Result<string, string>)
    ensures llm(prompt).Err? <==> r.Err?
    ensures r.Err? ==> r.error == llm(prompt).error
  {
    match llm(prompt)
    case Ok(out) => Ok(Strip(out))
    case Err(e) => Err(e)
  }

  /**
   * The reply is the answer's text between its leading and trailing
   * whitespace: it neither starts nor ends with whitespace, is empty only
   * for an all-whitespace answer, and cleaning it again changes nothing.
   */
  lemma GenerateResponseStripped(llm: PromptVars -> Result<string, string>, prompt: PromptVars)
    requires llm(prompt).Ok?
    ensures var r := GenerateResponse(llm, prompt);
      var out := llm(prompt).value;
      r.Ok? && Strip(r.value) == r.value
      && (r.value != "" ==> !IsSpace(r.value[0]) && !IsSpace(r.value[|r.value| - 1]))
      && (r.value == "" <==> AllSpace(out))
      && |r.value| <= |out|
  {
    var out := llm(prompt).value;
    var r := Strip(out);
    assert GenerateResponse(llm, prompt) == Ok(r);
    StripIdempotent(out);
    StripEmptyIff(out);
  }
}
