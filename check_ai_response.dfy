/** The poll endpoint (src/app/api/check-ai-response/route.ts, `GET`): a
    consume-once read of the entry stored for one chat id. */
module CheckAiResponse {
  import opened Common
  import opened CorrelationStore

  datatype PollReply =
    | BadRequest(error: string)                                 // HTTP 400
    | PollResult(hasResponse: bool, data: Option<StoredResponse>)  // HTTP 200, `success: true`

  const MissingChatIdError := "O parâmetro chatId é obrigatório"

  function StatusOf(reply: PollReply): int {
    if reply.BadRequest? then 400 else 200
  }

  /** The reply and the new store of one poll, `chatId == None` when the
      query parameter is missing. */
  function Poll(m: map<string, StoredResponse>, chatId: Option<string>)
    : (r: (PollReply, map<string, StoredResponse>))
    ensures !TruthyString(chatId) ==> r == (BadRequest(MissingChatIdError), m)
    ensures TruthyString(chatId) && chatId.value in m ==>
              r == (PollResult(true, Some(m[chatId.value])), m - {chatId.value})
    ensures TruthyString(chatId) && chatId.value !in m ==> r == (PollResult(false, None), m)
  {
    if !TruthyString(chatId) then (BadRequest(MissingChatIdError), m)
    else
      var (found, rest) := TakeEntry(m, chatId.value);
      if found.Some? then (PollResult(true, found), rest) else (PollResult(false, None), m)
  }

  /** A reply carries data exactly when it says it has a response. */
  lemma PollReplyConsistent(m: map<string, StoredResponse>, chatId: Option<string>)
    ensures Poll(m, chatId).0.PollResult? ==>
              Poll(m, chatId).0.hasResponse == Poll(m, chatId).0.data.Some?
  {
  }

  /** Two polls of one chat id with no write in between: the second finds
      nothing, so the entry is delivered to at most one of them. */
  lemma SecondPollFindsNothing(m: map<string, StoredResponse>, chatId: string)
    requires chatId != ""
    ensures Poll(Poll(m, Some(chatId)).1, Some(chatId)).0 == PollResult(false, None)
  {
  }

  /** A poll removes only the queried key. */
  lemma PollTouchesOnlyItsKey(m: map<string, StoredResponse>, chatId: Option<string>, other: string)
    requires chatId != Some(other) && other in m
    ensures other in Poll(m, chatId).1 && Poll(m, chatId).1[other] == m[other]
  {
  }

  /** Webhook delivery then poll: the poller receives exactly the last entry
      written for its key. */
  lemma PollAfterWrites(m: map<string, StoredResponse>, chatId: string, first: StoredResponse, second: StoredResponse)
    requires chatId != ""
    ensures Poll(PutEntry(PutEntry(m, chatId, first), chatId, second), Some(chatId)).0
            == PollResult(true, Some(second))
  {
  }

  /** `GET /api/check-ai-response?chatId=...` against the shared store. */
  method Get(store: Store, chatId: Option<string>) returns (reply: PollReply)
    modifies store
    ensures (reply, store.entries) == Poll(old(store.entries), chatId)
  {
    if !TruthyString(chatId) {
      return BadRequest(MissingChatIdError);
    }
    var response := store.Get(chatId.value);
    if response.Some? {
      store.Delete(chatId.value);
      return PollResult(true, response);
    }
    return PollResult(false, None);
  }
}
