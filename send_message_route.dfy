/** The send-message route (src/app/api/send-message/route.ts, `POST`):
    validate the body and the server configuration, build the outbound
    payload for the AI workflow, forward it, and relay the outcome. The
    outbound `fetch` is an input: the status it returned, or a failure. */
module SendMessageRoute {
  import opened Common

  /** The parsed request body; absent (or `null`) fields are `None`. */
  datatype SendRequest = SendRequest(message: Option<string>, chatId: Option<string>, filesUrl: Option<seq<string>>)

  /** The five environment values the route reads. */
  datatype SendEnv = SendEnv(
    n8nUrl: Option<string>,
    username: Option<string>,
    password: Option<string>,
    clienteName: Option<string>,
    clienteId: Option<string>)

  /** A value of the outbound JSON record. `parseInt` is not modelled: the
      value records the text it is applied to. */
  datatype PayloadValue = Text(s: string) | ParseIntOf(source: string) | TextList(items: seq<string>)

  datatype Upstream = UpstreamStatus(status: int) | UpstreamFailure

  datatype SendBody = SendError(error: string) | SendSuccess(message: string, chatId: string)

  datatype SendReply = SendReply(status: int, body: SendBody)

  const MissingFieldsError := "Mensagem e chatId são obrigatórios"
  const ConfigError := "Erro de configuração do servidor"
  const UpstreamError := "Falha ao enviar mensagem para o serviço de IA"
  const InternalError := "Erro interno do servidor"
  const SentMessage := "Mensagem enviada para o serviço de IA"

  predicate StatusOk(status: int) { 200 <= status <= 299 }

  predicate EnvComplete(env: SendEnv) {
    TruthyString(env.n8nUrl) && TruthyString(env.username) && TruthyString(env.password)
    && TruthyString(env.clienteName) && TruthyString(env.clienteId)
  }

  /** The outbound record: four fixed keys, and `files-url` exactly when the
      client sent a non-empty list of file URLs. */
  function OutboundPayload(clienteName: string, clienteId: string, chatId: string, message: string,
                           filesUrl: Option<seq<string>>): (p: map<string, PayloadValue>)
    ensures p.Keys == {"cliente_nome", "cliente_id", "chat_id", "mensagem"}
                      + (if filesUrl.Some? && |filesUrl.value| > 0 then {"files-url"} else {})
    ensures p["cliente_nome"] == Text(clienteName) && p["mensagem"] == Text(message)
    ensures p["cliente_id"] == ParseIntOf(clienteId) && p["chat_id"] == ParseIntOf(chatId)
    ensures "files-url" in p ==> p["files-url"] == TextList(filesUrl.value)
  {
    var base := map["cliente_nome" := Text(clienteName), "cliente_id" := ParseIntOf(clienteId),
                    "chat_id" := ParseIntOf(chatId), "mensagem" := Text(message)];
    if filesUrl.Some? && |filesUrl.value| > 0 then base["files-url" := TextList(filesUrl.value)] else base
  }

  /** The handler. `outbound` is the record posted to the workflow, `None`
      when the handler answers before making any outbound call. */
  method Post(body: Option<SendRequest>, env: SendEnv, upstream: Upstream)
    returns (reply: SendReply, outbound: Option<map<string, PayloadValue>>)
    ensures body.None? ==> reply == SendReply(500, SendError(InternalError)) && outbound.None?
    ensures body.Some? && !(TruthyString(body.value.message) && TruthyString(body.value.chatId)) ==>
              reply == SendReply(400, SendError(MissingFieldsError)) && outbound.None?
    ensures body.Some? && TruthyString(body.value.message) && TruthyString(body.value.chatId)
            && !EnvComplete(env) ==>
              reply == SendReply(500, SendError(ConfigError)) && outbound.None?
    ensures outbound.Some? <==>
              body.Some? && TruthyString(body.value.message) && TruthyString(body.value.chatId) && EnvComplete(env)
    ensures outbound.Some? ==>
              && outbound.value == OutboundPayload(env.clienteName.value, env.clienteId.value,
                                                   body.value.chatId.value, body.value.message.value,
                                                   body.value.filesUrl)
              && reply == (match upstream
                           case UpstreamFailure => SendReply(500, SendError(InternalError))
                           case UpstreamStatus(st) =>
                             if StatusOk(st) then SendReply(200, SendSuccess(SentMessage, body.value.chatId.value))
                             else SendReply(st, SendError(UpstreamError)))
  {
    if body.None? {
      return SendReply(500, SendError(InternalError)), None;
    }
    var message, chatId, filesUrl := body.value.message, body.value.chatId, body.value.filesUrl;
    if !TruthyString(message) || !TruthyString(chatId) {
      return SendReply(400, SendError(MissingFieldsError)), None;
    }
    if !EnvComplete(env) {
      return SendReply(500, SendError(ConfigError)), None;
    }
    var payload := map["cliente_nome" := Text(env.clienteName.value),
                       "cliente_id" := ParseIntOf(env.clienteId.value),
                       "chat_id" := ParseIntOf(chatId.value),
                       "mensagem" := Text(message.value)];
    if filesUrl.Some? && |filesUrl.value| > 0 {
      payload := payload["files-url" := TextList(filesUrl.value)];
    }
    outbound := Some(payload);
    match upstream
    case UpstreamFailure =>
      reply := SendReply(500, SendError(InternalError));
    case UpstreamStatus(status) =>
      if !StatusOk(status) {
        reply := SendReply(status, SendError(UpstreamError));
      } else {
        reply := SendReply(200, SendSuccess(SentMessage, chatId.value));
      }
  }
}
