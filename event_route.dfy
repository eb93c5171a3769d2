/** The submit-event route: validates the body, builds the event message and reports what the
    ledger returned. */
module EventRoute {
  import opened Wrappers
  import opened Json
  import opened Http
  import opened Hedera

  const TopicVar := "HEDERA_TOPIC_ID"
  const RequiredError := "eventType and shipmentSerial are required"
  const DefaultError := "Failed to submit event"

  /** The fields of the request body the route reads. */
  datatype EventRequest = EventRequest(eventType: JsonValue, shipmentSerial: JsonValue, cid: JsonValue)

  /** The message submitted to the topic; `at` is the submission time as an ISO-8601 string. */
  datatype EventMessage = EventMessage(eventType: JsonValue, shipmentSerial: JsNumber, cid: JsonValue, at: string)

  /** What the topic-submit transaction gave back: optional transaction id and receipt status, or
      a thrown error with an optional message. */
  datatype SubmitReply = Receipt(transactionId: Option<string>, status: Option<string>) | SubmitThrew(message: Option<string>)

  datatype EventBody =
    | Submitted(topicId: string, transactionId: string, status: string, message: EventMessage)
    | ErrorBody(error: string)

  /** The ledger call the route made: topic, operator and message. */
  datatype Submission = Submission(topicId: string, client: Client, message: EventMessage)

  datatype Handled = Handled(response: Response<EventBody>, submitted: Option<Submission>)

  /** The body is rejected with 400: `eventType` is falsy or `shipmentSerial` is undefined or null. */
  predicate Rejected(req: EventRequest)
  {
    !Truthy(req.eventType) || req.shipmentSerial.Absent? || req.shipmentSerial.Null?
  }

  /** The message object: the serial through `Number()`, a falsy cid as null. */
  function BuildMessage(req: EventRequest, now: string): (m: EventMessage)
    ensures m.eventType == req.eventType
    ensures m.shipmentSerial == ToNumber(req.shipmentSerial)
    ensures !Truthy(req.cid) ==> m.cid == Null
    ensures Truthy(req.cid) ==> m.cid == req.cid
    ensures m.at == now
  {
    EventMessage(req.eventType, ToNumber(req.shipmentSerial), OrElse(req.cid, Null), now)
  }

  /** `POST /api/shipment/event`, with `now` the clock reading and `reply` the ledger's answer. */
  function Post(req: EventRequest, env: Env, now: string, reply: SubmitReply): (h: Handled)
    ensures h.response.status == StatusBadRequest <==> Rejected(req)
    ensures Rejected(req) ==> h == Handled(Response(StatusBadRequest, ErrorBody(RequiredError)), None)
    ensures !Rejected(req) && GetRequiredEnv(env, TopicVar).Err? ==>
      h == Handled(Response(StatusServerError, ErrorBody(GetRequiredEnv(env, TopicVar).error)), None)
    ensures !Rejected(req) && GetRequiredEnv(env, TopicVar).Ok? && GetHederaClient(env).Err? ==>
      h == Handled(Response(StatusServerError, ErrorBody(MissingOperatorMessage)), None)
    ensures h.submitted.Some? <==> !Rejected(req) && GetRequiredEnv(env, TopicVar).Ok? && GetHederaClient(env).Ok?
    ensures h.submitted.Some? ==>
      h.submitted.value.message == BuildMessage(req, now) && h.submitted.value.topicId == env[TopicVar]
    ensures h.response.status == StatusOk <==> h.submitted.Some? && reply.Receipt?
    ensures h.response.status == StatusOk ==>
      h.response.body == Submitted(env[TopicVar], OrDefault(reply.transactionId, ""),
                                   OrDefault(reply.status, "SUCCESS"), h.submitted.value.message)
    ensures h.submitted.Some? && reply.SubmitThrew? ==>
      h.response == Response(StatusServerError, ErrorBody(MessageOr(reply.message, DefaultError)))
  {
    if Rejected(req) then
      Handled(Response(StatusBadRequest, ErrorBody(RequiredError)), None)
    else
      match GetRequiredEnv(env, TopicVar)
      case Err(e) => Handled(Response(StatusServerError, ErrorBody(MessageOr(Some(e), DefaultError))), None)
      case Ok(topicId) =>
        var message := BuildMessage(req, now);
        match GetHederaClient(env)
        case Err(e) => Handled(Response(StatusServerError, ErrorBody(MessageOr(Some(e), DefaultError))), None)
        case Ok(client) =>
          var submission := Some(Submission(topicId, client, message));
          match reply
          case SubmitThrew(m) => Handled(Response(StatusServerError, ErrorBody(MessageOr(m, DefaultError))), submission)
          case Receipt(txId, status) =>
            Handled(Response(StatusOk, Submitted(topicId, OrDefault(txId, ""), OrDefault(status, "SUCCESS"), message)), submission)
  }

  /** Serial 0 is accepted (only undefined and null are rejected), and any non-empty event type is. */
  lemma SerialZeroAndAnyEventTypeAccepted(eventType: string, cid: JsonValue)
    requires eventType != ""
    ensures !Rejected(EventRequest(Str(eventType), Num(0), cid))
    ensures Rejected(EventRequest(Str(eventType), Null, cid)) && Rejected(EventRequest(Str(eventType), Absent, cid))
    ensures Rejected(EventRequest(Str(""), Num(7), cid))
  {
  }

  /** Booleans pass the check as JavaScript values do: `true` is a valid event type and serial
      `false` is accepted, while event type `false` is rejected; boolean serials become 1 and 0. */
  lemma BooleanFields(cid: JsonValue, now: string)
    ensures !Rejected(EventRequest(Bool(true), Bool(false), cid))
    ensures Rejected(EventRequest(Bool(false), Num(1), cid))
    ensures BuildMessage(EventRequest(Bool(true), Bool(true), cid), now).shipmentSerial == Int(1)
    ensures BuildMessage(EventRequest(Bool(true), Bool(false), cid), now).shipmentSerial == Int(0)
  {
  }

  /** A serial sent as text with no numeric syntax passes the check and is submitted as NaN. */
  lemma NonNumericSerialSubmittedAsNaN(req: EventRequest, now: string)
    requires Truthy(req.eventType) && req.shipmentSerial.Str?
    requires !Text.IsBlank(req.shipmentSerial.s) && !IsNumericText(Text.Trim(req.shipmentSerial.s))
    ensures !Rejected(req)
    ensures BuildMessage(req, now).shipmentSerial == NaN
  {
  }

  /** A serial sent as the decimal text of a number is submitted as that number. */
  lemma SerialTextBecomesNumber(req: EventRequest, n: nat, now: string)
    requires req.shipmentSerial == Str(Text.DecimalString(n))
    ensures BuildMessage(req, now).shipmentSerial == Int(n)
  {
    DecimalStringConverts(n);
  }
}
