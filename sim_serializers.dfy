/**
 * The simulation serializers (backend/simulation/serializers.py): the
 * validation of the `case_id` a learner sends to start a session, and the
 * fields of a serialized chat message.
 */
module SimSerializers {
  import opened Wrappers
  import opened Strings
  import opened Json
  import opened CaseModels
  import opened SimModels

  // -------------------------------------------------------------- case_id

  /** Why a `case_id` was refused. */
  datatype CaseIdError =
    | Required        // the field is absent
    | NotNull         // the field is `null`
    | NotAnInteger    // the value is not an integer
    | Unavailable(message: string)

  const CaseUnavailableMessage: string := "Le cas clinique avec cet ID n'existe pas ou n'est pas approuvé."

  /** The integer field's conversion: a number, or a string of decimal digits. */
  function ToInteger(v: JsonValue): (r: Option<int>)
    ensures v.JInt? ==> r == Some(v.i)
    ensures v.JString? && ParseDecimal(v.s).Some? ==> r == Some(ParseDecimal(v.s).value)
  {
    match v
    case JInt(i) => Some(i)
    case JString(s) => (match ParseDecimal(s) case Some(n) => Some(n) case None => None)
    case _ => None
  }

  /** Is there an approved case with this id? (the lookup of `validate_case_id`) */
  predicate ApprovedCaseExists(t: CaseTables, value: int) {
    exists c :: c in t.cases && c.id == value && c.status == Approuve
  }

  /** `validate_case_id`: the id itself when it names an approved case, the one fixed error otherwise. */
  function ValidateCaseId(t: CaseTables, value: int): (r: Result<nat, CaseIdError>)
    ensures r.Ok? ==> r.value == value
  {
    if value >= 0 && ApprovedCaseExists(t, value) then Ok(value)
    else Err(Unavailable(CaseUnavailableMessage))
  }

  /**
   * An id is accepted exactly when a learner can see that case in the case
   * list, and a missing case and a case not yet approved are refused with
   * the same error, so the two cannot be told apart.
   */
  lemma ValidateCaseIdMeaning(t: CaseTables, value: int, other: int)
    ensures ValidateCaseId(t, value).Ok? <==> exists c :: c in VisibleCases(t) && c.id == value
    ensures ValidateCaseId(t, value).Ok? ==> ValidateCaseId(t, value).value == value
    ensures ValidateCaseId(t, value).Err? && ValidateCaseId(t, other).Err? ==>
      ValidateCaseId(t, value).error == ValidateCaseId(t, other).error == Unavailable(CaseUnavailableMessage)
  {
    if ValidateCaseId(t, value).Ok? {
      var c :| c in t.cases && c.id == value && c.status == Approuve;
      VisibleIffApproved(t, c);
    } else {
      forall c | c in VisibleCases(t) ensures c.id != value {
        VisibleIffApproved(t, c);
      }
    }
  }

  /** `StartSimulationSerializer(data=...).is_valid()`: `case_id` is a required integer, then it is validated. */
  function ValidateStart(t: CaseTables, caseId: Field<JsonValue>): (r: Result<nat, CaseIdError>)
    ensures caseId.Missing? ==> r == Err(Required)
    ensures caseId.Null? ==> r == Err(NotNull)
  {
    match caseId
    case Missing => Err(Required)
    case Null => Err(NotNull)
    case Present(v) =>
      match ToInteger(v)
      case None => Err(NotAnInteger)
      case Some(i) => ValidateCaseId(t, i)
  }

  /** A session can only be started on an approved case that is stored. */
  lemma ValidateStartAccepts(t: CaseTables, caseId: Field<JsonValue>)
    ensures var r := ValidateStart(t, caseId);
      r.Ok? <==> caseId.Present? && ToInteger(caseId.value).Some? && ApprovedCaseExists(t, ToInteger(caseId.value).value)
    ensures var r := ValidateStart(t, caseId);
      r.Ok? ==> exists c :: c in t.cases && c.id == r.value && c.status == Approuve
  {
  }

  // -------------------------------------------------------- chat messages

  /** The fields of a serialized message, in order. */
  const MessageFields: seq<string> := ["id", "session", "sender", "content", "timestamp"]

  const MessageReadOnlyFields: seq<string> := ["id", "session", "sender", "timestamp"]

  /** The fields a client may supply: the declared fields that are not read-only. */
  function WritableMessageFields(): seq<string> {
    Filter(MessageFields, (f: string) => f !in MessageReadOnlyFields)
  }

  /** A client can write a message's content and nothing else. */
  lemma OnlyContentIsWritable()
    ensures WritableMessageFields() == ["content"]
  {
    var keep := (f: string) => f !in MessageReadOnlyFields;
    assert MessageFields[1..][1..][1..] == ["content", "timestamp"];
    assert Filter(["timestamp"], keep) == [] by {
      assert ["timestamp"][1..] == [];
    }
    assert Filter(["content", "timestamp"], keep) == ["content"] by {
      assert ["content", "timestamp"][1..] == ["timestamp"];
    }
  }

  /** `ChatMessageSerializer(message).data`; times are clock readings. */
  function MessageJson(m: ChatMessage): JsonValue {
    JObject([Member("id", JInt(m.id)), Member("session", JInt(m.sessionId)), Member("sender", JString(SenderValue(m.sender))),
             Member("content", JString(m.content)), Member("timestamp", JInt(m.timestamp))])
  }

  /** A serialized message has the declared fields in order, and its sender and content read back. */
  lemma MessageJsonMeaning(m: ChatMessage)
    ensures var ms := MessageJson(m).members;
      |ms| == |MessageFields| && (forall k :: 0 <= k < |ms| ==> ms[k].key == MessageFields[k])
      && ms[2].value.JString? && ParseSender(ms[2].value.s) == Some(m.sender)
      && ms[3].value == JString(m.content)
  {
    SenderRoundTrip(m.sender, "");
  }
}
