/** The whole reconciliation loop, end to end: the AI workflow delivers to the
    webhook, the page's poll takes the entry out of the shared store, and the
    page folds it into the thread. Each lemma follows one delivery through
    the three stages. */
module Protocol {
  import opened Common
  import opened Types
  import opened CorrelationStore
  import AiWebhook
  import CheckAiResponse
  import Home

  /** The page polls with its chat id. The reply is exactly the entry of the
      latest accepted delivery for that id, and the entry is then gone. */
  lemma DeliveryThenPoll(m: map<string, StoredResponse>, req: AiWebhook.WebhookRequest, now: int)
    requires AiWebhook.Ingest(Some(req), now).write.Some?
    ensures var (key, entry) := AiWebhook.Ingest(Some(req), now).write.value;
            var (reply, rest) := CheckAiResponse.Poll(PutEntry(m, key, entry), Some(key));
            && reply == CheckAiResponse.PollResult(true, Some(entry))
            && key !in rest
            && (forall k :: k in m && k != key ==> k in rest && rest[k] == m[k])
  {
    var (key, entry) := AiWebhook.Ingest(Some(req), now).write.value;
    assert key != "";
  }

  /** The page and the webhook agree on what a look is except for one case:
      the webhook calls a payload a look when it has a description or any
      `remaining`, the page only when it has `remaining`. */
  lemma PageClassification(req: AiWebhook.WebhookRequest, now: int)
    ensures Home.IsLookResponse(AiWebhook.StoredEntryOf(req, now)) <==> req.remaining != NoRemaining
    ensures Home.IsLookResponse(AiWebhook.StoredEntryOf(req, now)) ==> AiWebhook.IsLookRequest(req)
  {
  }

  /** A batch that carries a description but no `remaining` is accepted and
      stored as a look, yet the page shows it as a bot text message without
      text and offers no quick replies; none of its products reach the
      thread. */
  lemma DescriptionOnlyBatchShownAsText(s: Home.SessionState, req: AiWebhook.WebhookRequest, now: int,
                                        newId: string)
    requires AiWebhook.TruthyId(req.clienteId) && AiWebhook.TruthyId(req.chatId)
    requires req.descricaoLooks.Some? && req.remaining == NoRemaining
    ensures AiWebhook.Ingest(Some(req), now).reply.Accepted?
    ensures AiWebhook.Ingest(Some(req), now).reply.message == AiWebhook.LookAckMessage
    ensures var t := Home.Reconcile(s, AiWebhook.StoredEntryOf(req, now), newId, now);
            && t.messages == s.messages + [Home.BotTextMessage(newId, now, None)]
            && t.quickResponses == []
            && !t.isTyping && !t.isWaitingForAI
  {
  }

  /** The description of a look batch is stored, but never reaches the look
      the page keeps in its thread. */
  lemma DescriptionNeverReachesThread(req: AiWebhook.WebhookRequest, now: int)
    requires AiWebhook.IsLookRequest(req)
    ensures AiWebhook.StoredEntryOf(req, now).descricaoLooks == req.descricaoLooks
    ensures Home.NewLook(AiWebhook.StoredEntryOf(req, now)).descricaoLooks == None
  {
  }

  /** A question delivered to the webhook reaches the thread as a bot text
      message with that question, and its answers become the quick replies in
      order (none when the workflow sent no answers). */
  lemma QuestionReachesThread(s: Home.SessionState, req: AiWebhook.WebhookRequest, now: int, newId: string)
    requires AiWebhook.Ingest(Some(req), now).write.Some? && !AiWebhook.IsLookRequest(req)
    ensures var t := Home.Reconcile(s, AiWebhook.StoredEntryOf(req, now), newId, now);
            var answers := if req.answers.Some? then req.answers.value else [];
            && t.messages == s.messages + [Home.BotTextMessage(newId, now, req.question)]
            && TruthyString(req.question)
            && |t.quickResponses| == |answers|
            && (forall i :: 0 <= i < |answers| ==> t.quickResponses[i].text == answers[i])
  {
  }

  /** A look batch delivered to the webhook reaches the thread with its five
      slots untouched, and its count decides whether the page keeps waiting. */
  lemma LookBatchReachesThread(s: Home.SessionState, req: AiWebhook.WebhookRequest, now: int, newId: string)
    requires AiWebhook.Ingest(Some(req), now).write.Some? && req.remaining != NoRemaining
    ensures var look := Home.NewLook(AiWebhook.StoredEntryOf(req, now));
            && look.remaining == req.remaining
            && look.items1 == req.items1 && look.items2 == req.items2 && look.items3 == req.items3
            && look.items4 == req.items4 && look.items5 == req.items5
    ensures var t := Home.Reconcile(s, AiWebhook.StoredEntryOf(req, now), newId, now);
            && t.remainingLooks == Home.RemainingOrZero(req.remaining)
            && (t.isWaitingForAI <==> Home.RemainingOrZero(req.remaining) > 0)
  {
  }
}
