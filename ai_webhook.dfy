/** The webhook the AI workflow calls (src/app/api/ai-webhook/route.ts,
    `POST`): validate the identifiers, classify the payload as a look batch
    or a question, normalise it into a stored entry and overwrite the entry
    of that chat id in the store. */
module AiWebhook {
  import opened Common
  import opened Types
  import opened CorrelationStore

  /** `clienteId` and `chatId` are typed `number | string`. */
  datatype JsId = IdNumber(n: int) | IdString(s: string)

  /** The parsed request body. A missing or `null` id is `None`. */
  datatype WebhookRequest = WebhookRequest(
    clienteId: Option<JsId>,
    chatId: Option<JsId>,
    question: Option<string>,
    answers: Option<seq<string>>,
    remaining: Remaining,
    descricaoLooks: Option<LookDescription>,
    items1: Slot,
    items2: Slot,
    items3: Slot,
    items4: Slot,
    items5: Slot)

  /** What the acknowledgement echoes besides the two ids. */
  datatype AckBody =
    | LookAck(remaining: Remaining, descricaoLooks: Option<LookDescription>,
              items1: Slot, items2: Slot, items3: Slot, items4: Slot, items5: Slot)
    | QuestionAck(question: Option<string>, answers: seq<string>)

  datatype AckData = AckData(clienteId: JsId, chatId: JsId, body: AckBody)

  datatype WebhookReply =
    | Rejected(status: int, error: string)
    | Accepted(message: string, data: AckData)   // HTTP 200, `success: true`

  const MissingIdsError := "Campos obrigatórios ausentes: clienteId ou chatId"
  const MissingQuestionError := "Campo \"question\" ausente para resposta de perguntas e respostas"
  const InternalError := "Erro interno do servidor"
  const LookAckMessage := "Resposta de look recebida"
  const QuestionAckMessage := "Resposta de IA recebida"

  /** JavaScript truthiness of an id: 0 and "" are falsy. */
  predicate TruthyId(id: Option<JsId>) {
    match id
    case None => false
    case Some(IdNumber(n)) => n != 0
    case Some(IdString(s)) => s != ""
  }

  /** `chatId.toString()`: the store key. */
  function KeyOf(id: JsId): string {
    match id
    case IdNumber(n) => IntToString(n)
    case IdString(s) => s
  }

  /** The structural discriminator of the webhook: a description object is
      present, or `remaining` is present at all (even `null`). */
  predicate IsLookRequest(req: WebhookRequest) {
    req.descricaoLooks.Some? || req.remaining != NoRemaining
  }

  /** The entry the webhook stores: a look keeps its count, description and
      five slots verbatim and has no question; a question keeps its text and
      its answers, `[]` when absent. */
  function StoredEntryOf(req: WebhookRequest, now: int): (e: StoredResponse)
    ensures e.timestamp == now
    ensures IsLookRequest(req) ==>
              && e.question == None && e.answers == None
              && e.remaining == req.remaining && e.descricaoLooks == req.descricaoLooks
              && e.items1 == req.items1 && e.items2 == req.items2 && e.items3 == req.items3
              && e.items4 == req.items4 && e.items5 == req.items5
    ensures !IsLookRequest(req) ==>
              && e.question == req.question
              && e.answers == Some(if req.answers.Some? then req.answers.value else [])
              && e.remaining == NoRemaining && e.descricaoLooks == None
              && e.items1 == e.items2 == e.items3 == e.items4 == e.items5 == NoItems
  {
    var e := StoredResponse(None, None, NoRemaining, None, NoItems, NoItems, NoItems, NoItems, NoItems, now);
    if IsLookRequest(req) then
      e.(remaining := req.remaining, descricaoLooks := req.descricaoLooks,
         items1 := req.items1, items2 := req.items2, items3 := req.items3,
         items4 := req.items4, items5 := req.items5)
    else
      e.(question := req.question,
         answers := Some(if req.answers.Some? then req.answers.value else []))
  }

  /** The result of one delivery: the reply, and the write (key and entry)
      that the handler makes, if any. */
  datatype Ingestion = Ingestion(reply: WebhookReply, write: Option<(string, StoredResponse)>)

  /** The whole decision of `POST`, with `body == None` for a body that does
      not parse as JSON. */
  function Ingest(body: Option<WebhookRequest>, now: int): (r: Ingestion)
    ensures body.None? ==> r == Ingestion(Rejected(500, InternalError), None)
    ensures body.Some? && !(TruthyId(body.value.clienteId) && TruthyId(body.value.chatId)) ==>
              r == Ingestion(Rejected(400, MissingIdsError), None)
    ensures body.Some? && TruthyId(body.value.clienteId) && TruthyId(body.value.chatId)
            && !IsLookRequest(body.value) && !TruthyString(body.value.question) ==>
              r == Ingestion(Rejected(400, MissingQuestionError), None)
    ensures body.Some? && TruthyId(body.value.clienteId) && TruthyId(body.value.chatId)
            && (IsLookRequest(body.value) || TruthyString(body.value.question)) ==>
              && r.reply.Accepted?
              && r.write == Some((KeyOf(body.value.chatId.value), StoredEntryOf(body.value, now)))
    ensures r.reply.Accepted? <==> r.write.Some?
    ensures r.write.Some? ==>
              && body.Some? && body.value.chatId.Some?
              && r.write.value == (KeyOf(body.value.chatId.value), StoredEntryOf(body.value, now))
              && r.reply.data.clienteId == body.value.clienteId.value
              && r.reply.data.chatId == body.value.chatId.value
              && (r.reply.message == LookAckMessage <==> IsLookRequest(body.value))
              && (r.reply.data.body.LookAck? <==> IsLookRequest(body.value))
    ensures r.write.Some? && !IsLookRequest(body.value) ==>
              && r.reply.message == QuestionAckMessage
              && r.reply.data.body == QuestionAck(body.value.question,
                                                  if body.value.answers.Some? then body.value.answers.value else [])
    ensures r.write.Some? && IsLookRequest(body.value) ==>
              r.reply.data.body == LookAck(body.value.remaining, body.value.descricaoLooks,
                                           body.value.items1, body.value.items2, body.value.items3,
                                           body.value.items4, body.value.items5)
  {
    match body
    case None => Ingestion(Rejected(500, InternalError), None)
    case Some(req) =>
      if !TruthyId(req.clienteId) || !TruthyId(req.chatId) then
        Ingestion(Rejected(400, MissingIdsError), None)
      else if !IsLookRequest(req) && !TruthyString(req.question) then
        Ingestion(Rejected(400, MissingQuestionError), None)
      else
        var ack := if IsLookRequest(req) then
                     LookAck(req.remaining, req.descricaoLooks,
                             req.items1, req.items2, req.items3, req.items4, req.items5)
                   else
                     QuestionAck(req.question, if req.answers.Some? then req.answers.value else []);
        var message := if IsLookRequest(req) then LookAckMessage else QuestionAckMessage;
        Ingestion(Accepted(message, AckData(req.clienteId.value, req.chatId.value, ack)),
                  Some((KeyOf(req.chatId.value), StoredEntryOf(req, now))))
  }

  /** The acknowledgement echoes exactly the fields that were stored. */
  lemma AckMatchesStoredEntry(req: WebhookRequest, now: int)
    requires Ingest(Some(req), now).write.Some?
    ensures var r := Ingest(Some(req), now);
            var e := r.write.value.1;
            match r.reply.data.body
            case LookAck(rem, desc, i1, i2, i3, i4, i5) =>
              rem == e.remaining && desc == e.descricaoLooks && i1 == e.items1 && i2 == e.items2
              && i3 == e.items3 && i4 == e.items4 && i5 == e.items5
            case QuestionAck(q, answers) =>
              q == e.question && Some(answers) == e.answers
  {
  }

  /** A numeric chat id and its decimal string select the same store entry. */
  lemma NumberAndStringIdsShareKey(n: int)
    ensures KeyOf(IdNumber(n)) == KeyOf(IdString(IntToString(n)))
  {
  }

  /** Distinct numeric chat ids never share a store entry. */
  lemma DistinctNumericIdsDistinctKeys(a: int, b: int)
    requires a != b
    ensures KeyOf(IdNumber(a)) != KeyOf(IdNumber(b))
  {
    if KeyOf(IdNumber(a)) == KeyOf(IdNumber(b)) {
      IntToStringInjective(a, b);
    }
  }

  /** `POST /api/ai-webhook`: the handler applies the write of `Ingest` to
      the store (last write wins at the key) and leaves the store untouched
      when the delivery is refused. */
  method Post(store: Store, body: Option<WebhookRequest>, now: int) returns (reply: WebhookReply)
    modifies store
    ensures reply == Ingest(body, now).reply
    ensures Ingest(body, now).write.None? ==> store.entries == old(store.entries)
    ensures Ingest(body, now).write.Some? ==>
              var (key, entry) := Ingest(body, now).write.value;
              store.entries == PutEntry(old(store.entries), key, entry)
  {
    if body.None? {
      return Rejected(500, InternalError);
    }
    var data := body.value;
    if !TruthyId(data.clienteId) || !TruthyId(data.chatId) {
      return Rejected(400, MissingIdsError);
    }
    var isLookResponse := IsLookRequest(data);
    if !isLookResponse && !TruthyString(data.question) {
      return Rejected(400, MissingQuestionError);
    }
    var ack: AckBody;
    if isLookResponse {
      ack := LookAck(data.remaining, data.descricaoLooks,
                     data.items1, data.items2, data.items3, data.items4, data.items5);
    } else {
      ack := QuestionAck(data.question, if data.answers.Some? then data.answers.value else []);
    }
    reply := Accepted(if isLookResponse then LookAckMessage else QuestionAckMessage,
                      AckData(data.clienteId.value, data.chatId.value, ack));
    var storedResponse := StoredResponse(None, None, NoRemaining, None,
                                         NoItems, NoItems, NoItems, NoItems, NoItems, now);
    if isLookResponse {
      storedResponse := storedResponse.(remaining := data.remaining, descricaoLooks := data.descricaoLooks);
      storedResponse := storedResponse.(items1 := data.items1, items2 := data.items2, items3 := data.items3);
      storedResponse := storedResponse.(items4 := data.items4, items5 := data.items5);
    } else {
      storedResponse := storedResponse.(question := data.question);
      storedResponse := storedResponse.(answers := Some(if data.answers.Some? then data.answers.value else []));
    }
    store.Set(KeyOf(data.chatId.value), storedResponse);
  }
}
