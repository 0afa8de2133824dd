/** The chat page (src/app/page.tsx, component `Home`): the client session
    state and the handlers that change it, above all `processAIResponse`,
    which folds each polled payload into the message thread.

    Each handler is a pure step function on `SessionState` (the values of
    the page's `useState` variables) and a method of class `Home` that
    applies the handler's `setX` calls in source order to the fields and is
    proved to reach the step function's state. `Date.now()` values are
    parameters: `newId` for a new message id (and the prefix of quick-reply
    ids), `now` for its timestamp. */
module Home {
  import opened Common
  import opened Types
  import opened CorrelationStore
  import opened SendMessageRoute

  const LookMessageText := "Aqui estão suas recomendações de looks:"
  const ErrorMessageText := "Desculpe, encontrei um erro. Por favor, tente novamente."

  datatype SessionState = SessionState(
    messages: seq<Message>,
    showInitialScreen: bool,
    inputValue: string,
    isTyping: bool,
    isWaitingForAI: bool,
    isGeneratingLooks: bool,
    remainingLooks: int,
    quickResponses: seq<QuickResponse>,
    currentChatId: string,
    isLookModalVisible: bool,
    selectedLookData: Option<LookData>,
    currentLookMessageId: Option<string>,
    uploadedImages: seq<UploadedImage>)

  function InitialState(chatId: string): SessionState {
    SessionState([], true, "", false, false, false, 0, [], chatId, false, None, None, [])
  }

  // ---------------------------------------------------------------------------
  // Reading a polled payload
  // ---------------------------------------------------------------------------

  /** `aiResponse.descricao_looks`. The poll hands over a stored entry, whose
      description sits under `descricaoLooks`; the snake-case key the page
      tests is never present. */
  function SnakeCaseDescription(r: StoredResponse): Option<LookDescription> {
    None
  }

  /** The page's discriminator: `descricao_looks || remaining !== undefined`. */
  predicate IsLookResponse(r: StoredResponse) {
    SnakeCaseDescription(r).Some? || r.remaining != NoRemaining
  }

  /** `newLook`: the count and the five slots. The description is copied
      under the snake-case key, so the look's `descricaoLooks` is absent. */
  function NewLook(r: StoredResponse): LookData {
    LookData(r.remaining, None, r.items1, r.items2, r.items3, r.items4, r.items5)
  }

  /** `aiResponse.remaining || 0`. */
  function RemainingOrZero(rem: Remaining): int {
    match rem
    case Count(n) => n
    case _ => 0
  }

  predicate LastIsLook(ms: seq<Message>) {
    |ms| > 0 && ms[|ms| - 1].kind == LookMessage
  }

  /** The test at the head of the `setMessages` updater: a batch starts a new
      look message unless the last message is a look and one is tracked. */
  predicate StartsNewLookMessage(s: SessionState) {
    !LastIsLook(s.messages) || s.currentLookMessageId.None?
  }

  function LookBotMessage(id: string, now: int, looks: seq<LookData>, expected: int): Message {
    Message(id, Some(LookMessageText), Bot, now, LookMessage, Some(looks), Some(expected), None)
  }

  function BotTextMessage(id: string, now: int, text: Option<string>): Message {
    Message(id, text, Bot, now, TextMessage, None, None, None)
  }

  function UserMessage(id: string, now: int, text: string, images: Option<seq<string>>): Message {
    Message(id, Some(text), User, now, TextMessage, None, None, images)
  }

  function LooksOf(m: Message): seq<LookData> {
    if m.looks.Some? then m.looks.value else []
  }

  /** `{ ...msg, looks: [...(msg.looks || []), newLook] }`. */
  function WithLook(m: Message, look: LookData): Message {
    m.(looks := Some(LooksOf(m) + [look]))
  }

  /** `prev.map(msg => msg.id === id ? WithLook(msg) : msg)`: every message
      with that id gets the look appended; the others stay as they were. */
  function ExtendLooks(ms: seq<Message>, id: string, look: LookData): (r: seq<Message>)
    ensures |r| == |ms|
    ensures forall i :: 0 <= i < |ms| ==> r[i] == if ms[i].id == id then WithLook(ms[i], look) else ms[i]
  {
    if ms == [] then [] else [if ms[0].id == id then WithLook(ms[0], look) else ms[0]] + ExtendLooks(ms[1..], id, look)
  }

  /** The `setMessages(prev => ...)` updater of a look batch, with the
      `setCurrentLookMessageId` call it makes: the batch is appended to the
      tracked message when the last message is a look and one is tracked;
      otherwise it opens a new look message, expecting `remaining + 1` looks,
      which becomes the tracked one. */
  function PlaceLook(prev: seq<Message>, tracked: Option<string>, look: LookData, newId: string, now: int)
    : (r: (seq<Message>, Option<string>))
    ensures !LastIsLook(prev) || tracked.None? ==>
              r == (prev + [LookBotMessage(newId, now, [look], RemainingOrZero(look.remaining) + 1)], Some(newId))
    ensures LastIsLook(prev) && tracked.Some? ==> r == (ExtendLooks(prev, tracked.value, look), tracked)
  {
    var isLastMessageLook := |prev| > 0 && prev[|prev| - 1].kind == LookMessage;
    if isLastMessageLook && tracked.Some? then (ExtendLooks(prev, tracked.value, look), tracked)
    else (prev + [LookBotMessage(newId, now, [look], RemainingOrZero(look.remaining) + 1)], Some(newId))
  }

  /** The quick replies of a question: one per answer, in order, with id
      `${stamp}_${index}`; none when `answers` is absent or empty. */
  function QuickResponsesFor(answers: Option<seq<string>>, stamp: string): (qs: seq<QuickResponse>)
    ensures answers.None? ==> qs == []
    ensures answers.Some? ==> |qs| == |answers.value|
    ensures answers.Some? ==> forall i :: 0 <= i < |qs| ==>
              qs[i].text == answers.value[i] && qs[i].id == stamp + "_" + IntToString(i)
  {
    if answers.None? || |answers.value| == 0 then []
    else seq(|answers.value|, i requires 0 <= i < |answers.value| =>
               QuickResponse(answers.value[i], stamp + "_" + IntToString(i)))
  }

  /** The fields a handler leaves alone when it only works on the thread and
      the indicators. */
  predicate SameInputsAndModal(s: SessionState, t: SessionState) {
    && t.showInitialScreen == s.showInitialScreen
    && t.inputValue == s.inputValue
    && t.currentChatId == s.currentChatId
    && t.isLookModalVisible == s.isLookModalVisible
    && t.selectedLookData == s.selectedLookData
    && t.uploadedImages == s.uploadedImages
  }

  /** `processAIResponse`: the reconciler step for one polled payload. */
  function Reconcile(s: SessionState, r: StoredResponse, newId: string, now: int): (t: SessionState)
    ensures SameInputsAndModal(s, t)
    // a look batch
    ensures IsLookResponse(r) ==>
              && t.remainingLooks == RemainingOrZero(r.remaining)
              && t.quickResponses == []
              && (RemainingOrZero(r.remaining) > 0 ==> t.isTyping && t.isWaitingForAI && t.isGeneratingLooks)
              && (RemainingOrZero(r.remaining) <= 0 ==>
                    !t.isTyping && !t.isWaitingForAI && !t.isGeneratingLooks && t.currentLookMessageId == None)
    ensures IsLookResponse(r) && StartsNewLookMessage(s) ==>
              && t.messages == s.messages + [LookBotMessage(newId, now, [NewLook(r)], RemainingOrZero(r.remaining) + 1)]
              && (RemainingOrZero(r.remaining) > 0 ==> t.currentLookMessageId == Some(newId))
    ensures IsLookResponse(r) && !StartsNewLookMessage(s) ==>
              && t.messages == ExtendLooks(s.messages, s.currentLookMessageId.value, NewLook(r))
              && (RemainingOrZero(r.remaining) > 0 ==> t.currentLookMessageId == s.currentLookMessageId)
    // a question
    ensures !IsLookResponse(r) ==>
              && t.currentLookMessageId == None
              && t.messages == s.messages + [BotTextMessage(newId, now, r.question)]
              && t.quickResponses == QuickResponsesFor(r.answers, newId)
              && !t.isTyping && !t.isWaitingForAI
              && t.isGeneratingLooks == s.isGeneratingLooks
              && t.remainingLooks == s.remainingLooks
  {
    if IsLookResponse(r) then
      var remaining := RemainingOrZero(r.remaining);
      var (messages, tracked) := PlaceLook(s.messages, s.currentLookMessageId, NewLook(r), newId, now);
      s.(remainingLooks := remaining, messages := messages,
         currentLookMessageId := if remaining > 0 then tracked else None,
         isGeneratingLooks := remaining > 0, isWaitingForAI := remaining > 0, isTyping := remaining > 0,
         quickResponses := [])
    else
      s.(currentLookMessageId := None,
         messages := s.messages + [BotTextMessage(newId, now, r.question)],
         quickResponses := QuickResponsesFor(r.answers, newId),
         isTyping := false, isWaitingForAI := false)
  }

  // ---------------------------------------------------------------------------
  // Sending
  // ---------------------------------------------------------------------------

  /** A staged image whose URL is sent: it has a URL, no error, and is not
      uploading. */
  predicate Sendable(img: UploadedImage) {
    TruthyString(img.url) && !TruthyString(img.error) && !img.isUploading
  }

  /** `uploadedImages.filter(Sendable).map(img => img.url!)`. */
  function SendableUrls(imgs: seq<UploadedImage>): (urls: seq<string>)
    ensures |urls| <= |imgs|
    ensures forall i :: 0 <= i < |imgs| && Sendable(imgs[i]) ==> imgs[i].url.value in urls
    ensures forall u :: u in urls ==> exists i :: 0 <= i < |imgs| && Sendable(imgs[i]) && imgs[i].url.value == u
    ensures urls == [] <==> forall i :: 0 <= i < |imgs| ==> !Sendable(imgs[i])
  {
    if imgs == [] then []
    else
      var rest := SendableUrls(imgs[1..]);
      assert forall i :: 1 <= i < |imgs| ==> imgs[i] == imgs[1..][i - 1];
      if Sendable(imgs[0]) then [imgs[0].url.value] + rest else rest
  }

  /** `filter` then `map` works image by image: no image contributes, or a
      sendable one contributes its URL, and a concatenation of lists yields
      the concatenation of their URLs. Together these fix the result: the
      URLs of the sendable images in staged order, one per image. */
  lemma {:induction false} SendableUrlsInOrder(a: seq<UploadedImage>, b: seq<UploadedImage>, img: UploadedImage)
    ensures SendableUrls([]) == []
    ensures SendableUrls([img]) == if Sendable(img) then [img.url.value] else []
    ensures SendableUrls(a + b) == SendableUrls(a) + SendableUrls(b)
  {
    if a == [] {
      assert a + b == b;
    } else {
      assert (a + b)[0] == a[0] && (a + b)[1..] == a[1..] + b;
      SendableUrlsInOrder(a[1..], b, img);
    }
  }

  /** `messageText || inputValue.trim()`. It is empty exactly when no
      (non-empty) text was passed and the input is all white space. */
  function ResolvedText(s: SessionState, messageText: Option<string>): (text: string)
    ensures text == "" <==> !TruthyString(messageText) && AllSpace(s.inputValue)
  {
    TrimEmptyIffAllSpace(s.inputValue);
    if TruthyString(messageText) then messageText.value else Trim(s.inputValue)
  }

  /** The body `sendMessageToAPI` posts: the message, the chat id and, when
      there are image URLs, `filesUrl`. */
  function ClientRequest(message: string, chatId: string, imageUrls: seq<string>): (req: SendRequest)
    ensures req.message == Some(message) && req.chatId == Some(chatId)
    ensures req.filesUrl.Some? <==> |imageUrls| > 0
    ensures req.filesUrl.Some? ==> req.filesUrl.value == imageUrls
  {
    SendRequest(Some(message), Some(chatId), if |imageUrls| > 0 then Some(imageUrls) else None)
  }

  /** `handleSendMessage` up to the call of `sendMessageToAPI`: the new state
      and the request body dispatched, if any. */
  function SendStep(s: SessionState, messageText: Option<string>, newId: string, now: int)
    : (r: (SessionState, Option<SendRequest>))
    ensures r.1.None? <==> ResolvedText(s, messageText) == ""
    ensures r.1.None? ==> r.0 == s
    ensures r.1.Some? ==>
              var text, urls, t := ResolvedText(s, messageText), SendableUrls(s.uploadedImages), r.0;
              && t.messages == s.messages + [UserMessage(newId, now, text, if |urls| > 0 then Some(urls) else None)]
              && r.1.value == ClientRequest(text, s.currentChatId, urls)
              && t.quickResponses == [] && t.currentLookMessageId == None
              && t.inputValue == "" && t.uploadedImages == []
              && t.isTyping && t.isWaitingForAI
              && !t.isLookModalVisible && t.selectedLookData == None
              && t.isGeneratingLooks == s.isGeneratingLooks && t.remainingLooks == s.remainingLooks
              && t.showInitialScreen == s.showInitialScreen && t.currentChatId == s.currentChatId
  {
    var text := ResolvedText(s, messageText);
    var urls := SendableUrls(s.uploadedImages);
    if |urls| > 0 && text == "" then (s, None)
    else if text == "" && |urls| == 0 then (s, None)
    else
      var t := s.(quickResponses := [], isLookModalVisible := false, selectedLookData := None,
                  currentLookMessageId := None,
                  messages := s.messages + [UserMessage(newId, now, text, if |urls| > 0 then Some(urls) else None)],
                  inputValue := "", uploadedImages := [], isTyping := true, isWaitingForAI := true);
      (t, Some(ClientRequest(text, s.currentChatId, urls)))
  }

  /** The `catch` branch of `sendMessageToAPI`: every indicator off, the
      tracked look message and the modal cleared, an error message appended. */
  function SendFailureStep(s: SessionState, newId: string, now: int): (t: SessionState)
    ensures t.messages == s.messages + [BotTextMessage(newId, now, Some(ErrorMessageText))]
    ensures !t.isTyping && !t.isWaitingForAI && !t.isGeneratingLooks && t.remainingLooks == 0
    ensures t.currentLookMessageId == None && !t.isLookModalVisible && t.selectedLookData == None
    ensures t.quickResponses == s.quickResponses && t.inputValue == s.inputValue
    ensures t.uploadedImages == s.uploadedImages && t.currentChatId == s.currentChatId
    ensures t.showInitialScreen == s.showInitialScreen
  {
    s.(isTyping := false, isWaitingForAI := false, isGeneratingLooks := false, remainingLooks := 0,
       currentLookMessageId := None, isLookModalVisible := false, selectedLookData := None,
       messages := s.messages + [BotTextMessage(newId, now, Some(ErrorMessageText))])
  }

  /** The guard of `handleKeyPress`. */
  predicate SendsOnKey(s: SessionState, key: string, shiftKey: bool) {
    key == "Enter" && !shiftKey && !s.isWaitingForAI && !s.isGeneratingLooks
  }

  /** `handleKeyPress`: Enter without Shift sends the input, unless the page
      is waiting for the AI or generating looks. */
  function KeyPressStep(s: SessionState, key: string, shiftKey: bool, newId: string, now: int)
    : (r: (SessionState, Option<SendRequest>))
    ensures !SendsOnKey(s, key, shiftKey) ==> r == (s, None)
    ensures SendsOnKey(s, key, shiftKey) ==> r == SendStep(s, None, newId, now)
  {
    if SendsOnKey(s, key, shiftKey) then SendStep(s, None, newId, now) else (s, None)
  }

  /** `handleInitialOptionSelect`: the thread restarts with the chosen option
      as the only message, which is sent without images. */
  function InitialOptionStep(s: SessionState, option: string, newId: string, now: int)
    : (r: (SessionState, SendRequest))
    ensures r.0.messages == [UserMessage(newId, now, option, None)]
    ensures !r.0.showInitialScreen && r.0.isTyping && r.0.isWaitingForAI
    ensures r.0.currentLookMessageId == s.currentLookMessageId && r.0.isGeneratingLooks == s.isGeneratingLooks
    ensures r.0.uploadedImages == s.uploadedImages && r.0.quickResponses == s.quickResponses
    ensures r.0.inputValue == s.inputValue && r.0.remainingLooks == s.remainingLooks
    ensures r.0.currentChatId == s.currentChatId
    ensures r.0.isLookModalVisible == s.isLookModalVisible && r.0.selectedLookData == s.selectedLookData
    ensures r.1 == ClientRequest(option, s.currentChatId, [])
  {
    (s.(showInitialScreen := false, messages := [UserMessage(newId, now, option, None)],
        isTyping := true, isWaitingForAI := true),
     ClientRequest(option, s.currentChatId, []))
  }

  /** `clearChat`: back to the initial screen with a new chat id; the text
      being typed is kept. */
  function ClearStep(s: SessionState, newChatId: string): (t: SessionState)
    ensures t == InitialState(newChatId).(inputValue := s.inputValue)
  {
    s.(messages := [], showInitialScreen := true, quickResponses := [], isTyping := false,
       isWaitingForAI := false, isGeneratingLooks := false, remainingLooks := 0,
       currentLookMessageId := None, isLookModalVisible := false, selectedLookData := None,
       uploadedImages := [], currentChatId := newChatId)
  }

  // ---------------------------------------------------------------------------
  // Staged images
  // ---------------------------------------------------------------------------

  function IdSet(imgs: seq<UploadedImage>): set<string> {
    set i | 0 <= i < |imgs| :: imgs[i].id
  }

  /** `images.find(img => img.id === id)`. */
  function FindById(imgs: seq<UploadedImage>, id: string): (r: Option<UploadedImage>)
    ensures r.None? <==> id !in IdSet(imgs)
    ensures r.Some? ==> r.value in imgs && r.value.id == id
  {
    if imgs == [] then None
    else if imgs[0].id == id then Some(imgs[0])
    else
      assert IdSet(imgs) == {imgs[0].id} + IdSet(imgs[1..]) by {
        forall x | x in IdSet(imgs) ensures x in {imgs[0].id} + IdSet(imgs[1..]) {
          var i :| 0 <= i < |imgs| && imgs[i].id == x;
          if i > 0 { assert imgs[1..][i - 1] == imgs[i]; }
        }
      }
      FindById(imgs[1..], id)
  }

  /** The entry found is the first one carrying the id. */
  lemma {:induction false} FindFirst(imgs: seq<UploadedImage>, j: nat)
    requires j < |imgs| && forall i :: 0 <= i < j ==> imgs[i].id != imgs[j].id
    ensures FindById(imgs, imgs[j].id) == Some(imgs[j])
  {
    if j > 0 {
      assert imgs[1..][j - 1] == imgs[j];
      FindFirst(imgs[1..], j - 1);
    }
  }

  /** `prev.map(e => find(images, e.id) ?? e)`. */
  function UpdateExisting(prev: seq<UploadedImage>, incoming: seq<UploadedImage>): (r: seq<UploadedImage>)
    ensures |r| == |prev|
    ensures forall i :: 0 <= i < |prev| ==>
              r[i] == if FindById(incoming, prev[i].id).Some? then FindById(incoming, prev[i].id).value else prev[i]
  {
    if prev == [] then []
    else
      var f := FindById(incoming, prev[0].id);
      [if f.Some? then f.value else prev[0]] + UpdateExisting(prev[1..], incoming)
  }

  /** `images.filter(img => !existingIds.has(img.id))`. */
  function NewOnes(incoming: seq<UploadedImage>, existing: set<string>): (r: seq<UploadedImage>)
    ensures |r| <= |incoming|
    ensures forall x :: x in r <==> x in incoming && x.id !in existing
    ensures (forall j :: 0 <= j < |incoming| ==> incoming[j].id !in existing) ==> r == incoming
  {
    if incoming == [] then []
    else
      var rest := NewOnes(incoming[1..], existing);
      assert forall j :: 1 <= j < |incoming| ==> incoming[j] == incoming[1..][j - 1];
      if incoming[0].id !in existing then [incoming[0]] + rest else rest
  }

  /** The filter keeps the unseen entries in incoming order, one for one: an
      entry is kept exactly when its id is unseen, and a concatenation
      yields the concatenation of what is kept from each part. */
  lemma {:induction false} NewOnesInOrder(a: seq<UploadedImage>, b: seq<UploadedImage>, img: UploadedImage,
                                          existing: set<string>)
    ensures NewOnes([], existing) == []
    ensures NewOnes([img], existing) == if img.id !in existing then [img] else []
    ensures NewOnes(a + b, existing) == NewOnes(a, existing) + NewOnes(b, existing)
  {
    if a == [] {
      assert a + b == b;
    } else {
      assert (a + b)[0] == a[0] && (a + b)[1..] == a[1..] + b;
      NewOnesInOrder(a[1..], b, img, existing);
    }
  }

  /** `handleImagesUploaded`'s updater. */
  function MergeImages(prev: seq<UploadedImage>, incoming: seq<UploadedImage>): seq<UploadedImage> {
    UpdateExisting(prev, incoming) + NewOnes(incoming, IdSet(prev))
  }

  /** Staged entries keep their place and id and are replaced by the first
      incoming entry with that id; an incoming entry whose id is not staged
      is appended; no incoming id is lost. */
  lemma MergeImagesProperties(prev: seq<UploadedImage>, incoming: seq<UploadedImage>)
    ensures var m := MergeImages(prev, incoming);
            && |m| >= |prev|
            && (forall i :: 0 <= i < |prev| ==> m[i].id == prev[i].id)
            && (forall i :: 0 <= i < |prev| && prev[i].id !in IdSet(incoming) ==> m[i] == prev[i])
            && (forall i :: 0 <= i < |prev| && FindById(incoming, prev[i].id).Some? ==>
                  m[i] == FindById(incoming, prev[i].id).value)
            && m[..|prev|] == UpdateExisting(prev, incoming)
            && m[|prev|..] == NewOnes(incoming, IdSet(prev))
            && (forall x :: x in m[|prev|..] <==> x in incoming && x.id !in IdSet(prev))
            && (forall j :: 0 <= j < |incoming| ==> incoming[j].id in IdSet(m))
  {
    var m := MergeImages(prev, incoming);
    var u := UpdateExisting(prev, incoming);
    assert m[..|prev|] == u && m[|prev|..] == NewOnes(incoming, IdSet(prev));
    forall i | 0 <= i < |prev| ensures m[i].id == prev[i].id {
      var f := FindById(incoming, prev[i].id);
      assert m[i] == u[i];
    }
    forall j | 0 <= j < |incoming| ensures incoming[j].id in IdSet(m) {
      var x := incoming[j];
      if x.id in IdSet(prev) {
        var i :| 0 <= i < |prev| && prev[i].id == x.id;
        assert m[i].id == x.id;
      } else {
        assert x in m[|prev|..];
        var k :| 0 <= k < |m[|prev|..]| && m[|prev|..][k] == x;
        assert m[|prev| + k] == x;
      }
    }
  }

  /** A preview list with fresh, distinct ids, followed by the final list with
      the same ids in the same order (what the upload components send), leaves
      the staged list extended by exactly the final entries. */
  lemma PreviewThenFinal(prev: seq<UploadedImage>, initial: seq<UploadedImage>, final: seq<UploadedImage>)
    requires forall j :: 0 <= j < |initial| ==> initial[j].id !in IdSet(prev)
    requires forall j, k :: 0 <= j < k < |initial| ==> initial[j].id != initial[k].id
    requires |final| == |initial| && forall j :: 0 <= j < |final| ==> final[j].id == initial[j].id
    ensures MergeImages(prev, initial) == prev + initial
    ensures MergeImages(MergeImages(prev, initial), final) == prev + final
  {
    UpdateWithoutMatches(prev, initial);
    SameIdsSameIdSet(initial, final);
    forall i | 0 <= i < |prev| ensures prev[i].id !in IdSet(final) {
      assert prev[i].id in IdSet(prev);
    }
    UpdateWithoutMatches(prev, final);
    UpdateByMatchingIds(initial, final);
    UpdateAppend(prev, initial, final);
    var mid := prev + initial;
    forall x | x in final ensures x.id in IdSet(mid) {
      var j :| 0 <= j < |final| && final[j] == x;
      assert mid[|prev| + j] == initial[j];
    }
    NoneNew(final, IdSet(mid));
  }

  lemma {:induction false} UpdateAppend(a: seq<UploadedImage>, b: seq<UploadedImage>, incoming: seq<UploadedImage>)
    ensures UpdateExisting(a + b, incoming) == UpdateExisting(a, incoming) + UpdateExisting(b, incoming)
  {
    if a == [] {
      assert a + b == b;
    } else {
      assert (a + b)[0] == a[0] && (a + b)[1..] == a[1..] + b;
      UpdateAppend(a[1..], b, incoming);
    }
  }

  /** Entries replaced by a list with the same distinct ids, in order, become
      that list. */
  lemma UpdateByMatchingIds(initial: seq<UploadedImage>, final: seq<UploadedImage>)
    requires forall j, k :: 0 <= j < k < |initial| ==> initial[j].id != initial[k].id
    requires |final| == |initial| && forall j :: 0 <= j < |final| ==> final[j].id == initial[j].id
    ensures UpdateExisting(initial, final) == final
  {
    forall j | 0 <= j < |initial| ensures UpdateExisting(initial, final)[j] == final[j] {
      FindDistinct(final, j);
    }
  }

  /** No staged entry is matched by an incoming id: nothing is replaced. */
  lemma UpdateWithoutMatches(prev: seq<UploadedImage>, incoming: seq<UploadedImage>)
    requires forall i :: 0 <= i < |prev| ==> prev[i].id !in IdSet(incoming)
    ensures UpdateExisting(prev, incoming) == prev
  {
  }

  lemma SameIdsSameIdSet(a: seq<UploadedImage>, b: seq<UploadedImage>)
    requires |a| == |b| && forall j :: 0 <= j < |a| ==> a[j].id == b[j].id
    ensures IdSet(a) == IdSet(b)
  {
    forall x | x in IdSet(b) ensures x in IdSet(a) {
      var j :| 0 <= j < |b| && b[j].id == x;
      assert a[j].id == x;
    }
  }

  /** With distinct ids, the entry found for an id is the one carrying it. */
  lemma FindDistinct(imgs: seq<UploadedImage>, j: nat)
    requires j < |imgs| && forall i, k :: 0 <= i < k < |imgs| ==> imgs[i].id != imgs[k].id
    ensures FindById(imgs, imgs[j].id) == Some(imgs[j])
  {
    FindFirst(imgs, j);
  }

  lemma NoneNew(incoming: seq<UploadedImage>, existing: set<string>)
    requires forall x :: x in incoming ==> x.id in existing
    ensures NewOnes(incoming, existing) == []
  {
  }

  /** `prev.filter(img => img.id !== imageId)`. */
  function RemoveById(imgs: seq<UploadedImage>, id: string): (r: seq<UploadedImage>)
    ensures |r| <= |imgs|
    ensures forall x :: x in r <==> x in imgs && x.id != id
    ensures id !in IdSet(imgs) ==> r == imgs
  {
    if imgs == [] then []
    else
      var rest := RemoveById(imgs[1..], id);
      assert forall j :: 1 <= j < |imgs| ==> imgs[j] == imgs[1..][j - 1];
      assert id !in IdSet(imgs) ==> id !in IdSet(imgs[1..]) by {
        if id in IdSet(imgs[1..]) {
          var j :| 0 <= j < |imgs[1..]| && imgs[1..][j].id == id;
          assert imgs[j + 1].id == id;
        }
      }
      if imgs[0].id != id then [imgs[0]] + rest else rest
  }

  /** Removal keeps the other entries in their order, one for one: an entry
      stays exactly when it has another id, and a concatenation yields the
      concatenation of what stays of each part. */
  lemma {:induction false} RemoveByIdInOrder(a: seq<UploadedImage>, b: seq<UploadedImage>, img: UploadedImage,
                                             id: string)
    ensures RemoveById([], id) == []
    ensures RemoveById([img], id) == if img.id != id then [img] else []
    ensures RemoveById(a + b, id) == RemoveById(a, id) + RemoveById(b, id)
  {
    if a == [] {
      assert a + b == b;
    } else {
      assert (a + b)[0] == a[0] && (a + b)[1..] == a[1..] + b;
      RemoveByIdInOrder(a[1..], b, img, id);
    }
  }

  // ---------------------------------------------------------------------------
  // The invariant of the thread
  // ---------------------------------------------------------------------------

  predicate FreshId(ms: seq<Message>, id: string) {
    forall i :: 0 <= i < |ms| ==> ms[i].id != id
  }

  predicate DistinctIds(ms: seq<Message>) {
    forall i, j :: 0 <= i < j < |ms| ==> ms[i].id != ms[j].id
  }

  /** None of the message's looks carries a description. */
  predicate Undescribed(m: Message) {
    forall j :: 0 <= j < |LooksOf(m)| ==> LooksOf(m)[j].descricaoLooks.None?
  }

  /** No look in the thread carries a description (they arrive under a key
      the page does not copy). */
  predicate NoDescriptions(ms: seq<Message>) {
    forall i :: 0 <= i < |ms| ==> Undescribed(ms[i])
  }

  predicate ThreadOk(ms: seq<Message>) {
    DistinctIds(ms) && NoDescriptions(ms)
  }

  /** A tracked look message, while the last message is a look, is that last
      message. */
  predicate TrackedIsLast(s: SessionState) {
    s.currentLookMessageId.Some? && LastIsLook(s.messages) ==>
      s.messages[|s.messages| - 1].id == s.currentLookMessageId.value
  }

  predicate Coherent(s: SessionState) {
    ThreadOk(s.messages) && TrackedIsLast(s)
  }

  lemma AppendKeepsThread(ms: seq<Message>, m: Message)
    requires ThreadOk(ms) && FreshId(ms, m.id) && Undescribed(m)
    ensures ThreadOk(ms + [m])
  {
    assert forall i :: 0 <= i < |ms| ==> (ms + [m])[i] == ms[i];
  }

  lemma ReplaceLastKeepsThread(ms: seq<Message>, m: Message)
    requires ThreadOk(ms) && |ms| > 0 && m.id == ms[|ms| - 1].id && Undescribed(m)
    ensures ThreadOk(ms[..|ms| - 1] + [m])
  {
    var r := ms[..|ms| - 1] + [m];
    assert forall i :: 0 <= i < |ms| - 1 ==> r[i] == ms[i];
  }

  lemma WithLookUndescribed(m: Message, look: LookData)
    requires Undescribed(m) && look.descricaoLooks.None?
    ensures Undescribed(WithLook(m, look))
  {
    assert LooksOf(WithLook(m, look)) == LooksOf(m) + [look];
  }

  /** With distinct ids, extending the looks of the last message's id
      changes only the last message. */
  lemma ExtendLastOnly(ms: seq<Message>, look: LookData)
    requires DistinctIds(ms) && |ms| > 0
    ensures ExtendLooks(ms, ms[|ms| - 1].id, look) == ms[..|ms| - 1] + [WithLook(ms[|ms| - 1], look)]
  {
    var n := |ms|;
    var r := ExtendLooks(ms, ms[n - 1].id, look);
    forall i | 0 <= i < n - 1 ensures r[i] == ms[i] {
      assert ms[i].id != ms[n - 1].id;
    }
  }

  /** On a coherent thread, a batch that continues the tracked look message
      changes only the last message, by appending the batch to its looks. */
  lemma ContinuingBatchExtendsLastOnly(s: SessionState, r: StoredResponse, newId: string, now: int)
    requires Coherent(s) && IsLookResponse(r) && !StartsNewLookMessage(s)
    ensures var n := |s.messages|;
            Reconcile(s, r, newId, now).messages == s.messages[..n - 1] + [WithLook(s.messages[n - 1], NewLook(r))]
  {
    ExtendLastOnly(s.messages, NewLook(r));
  }

  /** Whether the step creates a message (and so uses the offered id). */
  predicate CreatesMessage(s: SessionState, r: StoredResponse) {
    !IsLookResponse(r) || StartsNewLookMessage(s)
  }

  lemma ReconcileKeepsCoherent(s: SessionState, r: StoredResponse, newId: string, now: int)
    requires Coherent(s) && (CreatesMessage(s, r) ==> FreshId(s.messages, newId))
    ensures Coherent(Reconcile(s, r, newId, now))
  {
    if !IsLookResponse(r) {
      AppendKeepsThread(s.messages, BotTextMessage(newId, now, r.question));
    } else if StartsNewLookMessage(s) {
      AppendKeepsThread(s.messages, LookBotMessage(newId, now, [NewLook(r)], RemainingOrZero(r.remaining) + 1));
    } else {
      var n := |s.messages|;
      ContinuingBatchExtendsLastOnly(s, r, newId, now);
      WithLookUndescribed(s.messages[n - 1], NewLook(r));
      ReplaceLastKeepsThread(s.messages, WithLook(s.messages[n - 1], NewLook(r)));
    }
  }

  lemma SendKeepsCoherent(s: SessionState, messageText: Option<string>, newId: string, now: int)
    requires Coherent(s) && FreshId(s.messages, newId)
    ensures Coherent(SendStep(s, messageText, newId, now).0)
  {
    if ResolvedText(s, messageText) != "" {
      var urls := SendableUrls(s.uploadedImages);
      AppendKeepsThread(s.messages, UserMessage(newId, now, ResolvedText(s, messageText),
                                                if |urls| > 0 then Some(urls) else None));
    }
  }

  lemma SendFailureKeepsCoherent(s: SessionState, newId: string, now: int)
    requires Coherent(s) && FreshId(s.messages, newId)
    ensures Coherent(SendFailureStep(s, newId, now))
  {
    AppendKeepsThread(s.messages, BotTextMessage(newId, now, Some(ErrorMessageText)));
  }

  // ---------------------------------------------------------------------------
  // Several payloads
  // ---------------------------------------------------------------------------

  /** The state after the payloads `rs`, polled in order; payload k gets the
      id `ids[k]` and the time `times[k]` for a message it may create. */
  function ReconcileAll(s: SessionState, rs: seq<StoredResponse>, ids: seq<string>, times: seq<int>): SessionState
    requires |ids| == |rs| && |times| == |rs|
    decreases |rs|
  {
    if rs == [] then s
    else
      var k := |rs| - 1;
      Reconcile(ReconcileAll(s, rs[..k], ids[..k], times[..k]), rs[k], ids[k], times[k])
  }

  function NewLooks(rs: seq<StoredResponse>): (looks: seq<LookData>)
    ensures |looks| == |rs|
    ensures forall k :: 0 <= k < |rs| ==> looks[k] == NewLook(rs[k])
  {
    if rs == [] then [] else NewLooks(rs[..|rs| - 1]) + [NewLook(rs[|rs| - 1])]
  }

  /** The state a countdown stream of `total` batches has reached after `k`
      of them: one look message, opened with `id` at `time`, holding `looks`. */
  predicate StreamAt(t: SessionState, prefix: seq<Message>, id: string, time: int, looks: seq<LookData>,
                     total: int, k: int)
  {
    && t.messages == prefix + [LookBotMessage(id, time, looks, total)]
    && t.remainingLooks == total - k
    && (t.isGeneratingLooks <==> k < total)
    && t.isWaitingForAI == t.isTyping == (k < total)
    && t.currentLookMessageId == (if k < total then Some(id) else None)
    && t.quickResponses == []
    && Coherent(t)
  }

  /** The first batch of a countdown opens the look message. */
  lemma StreamStart(s: SessionState, r: StoredResponse, id: string, time: int, total: nat)
    requires Coherent(s) && StartsNewLookMessage(s) && FreshId(s.messages, id)
    requires total >= 1 && r.remaining == Count(total - 1)
    ensures StreamAt(Reconcile(s, r, id, time), s.messages, id, time, [NewLook(r)], total, 1)
  {
    ReconcileKeepsCoherent(s, r, id, time);
  }

  /** A further batch of the countdown extends it. */
  lemma StreamNext(p: SessionState, prefix: seq<Message>, id: string, time: int, looks: seq<LookData>,
                   total: int, k: int, r: StoredResponse, newId: string, now: int)
    requires StreamAt(p, prefix, id, time, looks, total, k) && k < total
    requires r.remaining == Count(total - 1 - k)
    ensures StreamAt(Reconcile(p, r, newId, now), prefix, id, time, looks + [NewLook(r)], total, k + 1)
  {
    ContinuingBatchExtendsLastOnly(p, r, newId, now);
    assert p.messages[..|p.messages| - 1] == prefix;
    ReconcileKeepsCoherent(p, r, newId, now);
  }

  /** A stream of `total` batches counting down `total - 1, ..., 0`, with no
      send or question in between, builds exactly one new look message that
      holds the batches in arrival order and expects `total` looks. After
      batch k the page is generating (and tracks that message) exactly when
      more batches are announced. */
  lemma {:induction false} CountdownStream(s: SessionState, rs: seq<StoredResponse>, ids: seq<string>,
                                           times: seq<int>, total: nat, k: nat)
    requires Coherent(s) && StartsNewLookMessage(s)
    requires |rs| == total && |ids| == total && |times| == total
    requires 1 <= k <= total
    requires forall j :: 0 <= j < total ==> rs[j].remaining == Count(total - 1 - j)
    requires FreshId(s.messages, ids[0])
    ensures StreamAt(ReconcileAll(s, rs[..k], ids[..k], times[..k]), s.messages, ids[0], times[0],
                     NewLooks(rs[..k]), total, k)
  {
    ReconcileAllStep(s, rs, ids, times, k);
    if k == 1 {
      assert rs[..0] == [] && ids[..0] == [] && times[..0] == [];
      assert NewLooks(rs[..1]) == [NewLook(rs[0])];
      StreamStart(s, rs[0], ids[0], times[0], total);
    } else {
      CountdownStream(s, rs, ids, times, total, k - 1);
      CountdownStep(s.messages, ReconcileAll(s, rs[..k - 1], ids[..k - 1], times[..k - 1]), rs, ids, times, total, k);
    }
  }

  lemma CountdownStep(prefix: seq<Message>, p: SessionState, rs: seq<StoredResponse>, ids: seq<string>,
                      times: seq<int>, total: nat, k: nat)
    requires |rs| == total && |ids| == total && |times| == total && 1 < k <= total
    requires rs[k - 1].remaining == Count(total - k)
    requires StreamAt(p, prefix, ids[0], times[0], NewLooks(rs[..k - 1]), total, k - 1)
    ensures StreamAt(Reconcile(p, rs[k - 1], ids[k - 1], times[k - 1]), prefix, ids[0], times[0],
                     NewLooks(rs[..k]), total, k)
  {
    assert NewLooks(rs[..k]) == NewLooks(rs[..k - 1]) + [NewLook(rs[k - 1])] by {
      assert rs[..k][..k - 1] == rs[..k - 1];
    }
    StreamNext(p, prefix, ids[0], times[0], NewLooks(rs[..k - 1]), total, k - 1, rs[k - 1], ids[k - 1], times[k - 1]);
  }

  lemma ReconcileAllStep(s: SessionState, rs: seq<StoredResponse>, ids: seq<string>, times: seq<int>, k: nat)
    requires |ids| == |rs| && |times| == |rs| && 1 <= k <= |rs|
    ensures ReconcileAll(s, rs[..k], ids[..k], times[..k])
            == Reconcile(ReconcileAll(s, rs[..k - 1], ids[..k - 1], times[..k - 1]), rs[k - 1], ids[k - 1], times[k - 1])
  {
    assert rs[..k][..k - 1] == rs[..k - 1] && ids[..k][..k - 1] == ids[..k - 1] && times[..k][..k - 1] == times[..k - 1];
  }

  /** A question arriving while looks are being accumulated closes the look
      message: the next batch opens a new look message instead of extending
      the old one. */
  lemma QuestionEndsAccumulation(s: SessionState, q: StoredResponse, b: StoredResponse,
                                 id1: string, t1: int, id2: string, t2: int)
    requires !IsLookResponse(q) && IsLookResponse(b)
    ensures var u := Reconcile(Reconcile(s, q, id1, t1), b, id2, t2);
            u.messages == s.messages + [BotTextMessage(id1, t1, q.question),
                                        LookBotMessage(id2, t2, [NewLook(b)], RemainingOrZero(b.remaining) + 1)]
  {
    var u1 := Reconcile(s, q, id1, t1);
    assert StartsNewLookMessage(u1);
  }

  /** Sending a message between batches also closes the look message: a late
      batch opens a new one after the user's message. */
  lemma SendEndsAccumulation(s: SessionState, text: Option<string>, b: StoredResponse,
                             id1: string, t1: int, id2: string, t2: int)
    requires IsLookResponse(b) && ResolvedText(s, text) != ""
    ensures var u := Reconcile(SendStep(s, text, id1, t1).0, b, id2, t2);
            |u.messages| == |s.messages| + 2 && u.messages[..|s.messages|] == s.messages
            && u.messages[|s.messages| + 1] == LookBotMessage(id2, t2, [NewLook(b)], RemainingOrZero(b.remaining) + 1)
  {
    var u1 := SendStep(s, text, id1, t1).0;
    assert StartsNewLookMessage(u1);
    var u := Reconcile(u1, b, id2, t2);
    assert u.messages[..|s.messages|] == u1.messages[..|s.messages|];
  }

  /** The page: one field per `useState` hook, one setter method per hook.
      A handler calls the setters in source order; `State()` is the value
      of all the hooks together. */
  class Home {
    var messages: seq<Message>
    var showInitialScreen: bool
    var inputValue: string
    var isTyping: bool
    var isWaitingForAI: bool
    var isGeneratingLooks: bool
    var remainingLooks: int
    var quickResponses: seq<QuickResponse>
    var currentChatId: string
    var isLookModalVisible: bool
    var selectedLookData: Option<LookData>
    var currentLookMessageId: Option<string>
    var uploadedImages: seq<UploadedImage>

    function State(): SessionState
      reads this
    {
      SessionState(messages, showInitialScreen, inputValue, isTyping, isWaitingForAI, isGeneratingLooks,
                   remainingLooks, quickResponses, currentChatId, isLookModalVisible, selectedLookData,
                   currentLookMessageId, uploadedImages)
    }

    ghost predicate Valid()
      reads this
    {
      Coherent(State())
    }

    /** The initial `useState` values; `chatId` is `Date.now().toString()`. */
    constructor (chatId: string)
      ensures Valid() && State() == InitialState(chatId)
    {
      messages := [];
      showInitialScreen := true;
      inputValue := "";
      isTyping := false;
      isWaitingForAI := false;
      isGeneratingLooks := false;
      remainingLooks := 0;
      quickResponses := [];
      currentChatId := chatId;
      isLookModalVisible := false;
      selectedLookData := None;
      currentLookMessageId := None;
      uploadedImages := [];
    }

    method ProcessAIResponse(aiResponse: StoredResponse, newId: string, now: int)
      requires Valid() && FreshId(messages, newId)
      modifies this
      ensures Valid()
      ensures State() == Reconcile(old(State()), aiResponse, newId, now)
    {
      ghost var s := State();
      var isLookResponse := IsLookResponse(aiResponse);
      if isLookResponse {
        ApplyLookBatch(aiResponse, newId, now);
      } else {
        ApplyQuestion(aiResponse, newId, now);
      }
      ReconcileKeepsCoherent(s, aiResponse, newId, now);
    }

    /** The look branch of `processAIResponse`. */
    method ApplyLookBatch(aiResponse: StoredResponse, newId: string, now: int)
      requires IsLookResponse(aiResponse)
      modifies this
      ensures State() == Reconcile(old(State()), aiResponse, newId, now)
    {
      var newLook := NewLook(aiResponse);
      var remaining := RemainingOrZero(aiResponse.remaining);
      SetRemainingLooks(remaining);
      var placed := PlaceLook(messages, currentLookMessageId, newLook, newId, now);
      SetCurrentLookMessageId(placed.1);
      SetMessages(placed.0);
      if remaining > 0 {
        SetIsGeneratingLooks(true);
        SetIsWaitingForAI(true);
        SetIsTyping(true);
      } else {
        SetIsGeneratingLooks(false);
        SetIsWaitingForAI(false);
        SetIsTyping(false);
        SetCurrentLookMessageId(None);
      }
      SetQuickResponses([]);
    }

    /** The question branch of `processAIResponse`. */
    method ApplyQuestion(aiResponse: StoredResponse, newId: string, now: int)
      requires !IsLookResponse(aiResponse)
      modifies this
      ensures State() == Reconcile(old(State()), aiResponse, newId, now)
    {
      SetCurrentLookMessageId(None);
      SetMessages(messages + [BotTextMessage(newId, now, aiResponse.question)]);
      SetQuickResponses(QuickResponsesFor(aiResponse.answers, newId));
      SetIsTyping(false);
      SetIsWaitingForAI(false);
    }

    /** `handleSendMessage` (and `handleQuickResponse`, which passes the
        reply's text): returns the body handed to `sendMessageToAPI`. */
    method HandleSendMessage(messageText: Option<string>, newId: string, now: int)
      returns (dispatched: Option<SendRequest>)
      requires Valid() && FreshId(messages, newId)
      modifies this
      ensures Valid()
      ensures (State(), dispatched) == SendStep(old(State()), messageText, newId, now)
    {
      ghost var s := State();
      var messageToSend := ResolvedText(State(), messageText);
      var imageUrls := SendableUrls(uploadedImages);
      if |imageUrls| > 0 && messageToSend == "" {
        return None;
      }
      if messageToSend == "" && |imageUrls| == 0 {
        return None;
      }
      SetQuickResponses([]);
      SetIsLookModalVisible(false);
      SetSelectedLookData(None);
      SetCurrentLookMessageId(None);
      var newUserMessage := UserMessage(newId, now, messageToSend, if |imageUrls| > 0 then Some(imageUrls) else None);
      SetMessages(messages + [newUserMessage]);
      SetInputValue("");
      SetUploadedImages([]);
      SetIsTyping(true);
      SetIsWaitingForAI(true);
      dispatched := Some(ClientRequest(messageToSend, currentChatId, imageUrls));
      assert State() == SendStep(s, messageText, newId, now).0;
      SendKeepsCoherent(s, messageText, newId, now);
    }

    /** The `catch` branch of `sendMessageToAPI`, run when the send request
        fails or answers with a non-ok status. */
    method SendMessageFailed(newId: string, now: int)
      requires Valid() && FreshId(messages, newId)
      modifies this
      ensures Valid()
      ensures State() == SendFailureStep(old(State()), newId, now)
    {
      ghost var s := State();
      SetIsTyping(false);
      SetIsWaitingForAI(false);
      SetIsGeneratingLooks(false);
      SetRemainingLooks(0);
      SetCurrentLookMessageId(None);
      SetIsLookModalVisible(false);
      SetSelectedLookData(None);
      SetMessages(messages + [BotTextMessage(newId, now, Some(ErrorMessageText))]);
      SendFailureKeepsCoherent(s, newId, now);
    }

    method HandleKeyPress(key: string, shiftKey: bool, newId: string, now: int)
      returns (dispatched: Option<SendRequest>)
      requires Valid() && FreshId(messages, newId)
      modifies this
      ensures Valid()
      ensures (State(), dispatched) == KeyPressStep(old(State()), key, shiftKey, newId, now)
    {
      dispatched := None;
      if key == "Enter" && !shiftKey && !isWaitingForAI && !isGeneratingLooks {
        dispatched := HandleSendMessage(None, newId, now);
      }
    }

    method ClearChat(newChatId: string)
      modifies this
      ensures Valid()
      ensures State() == ClearStep(old(State()), newChatId)
    {
      SetMessages([]);
      SetShowInitialScreen(true);
      SetQuickResponses([]);
      SetIsTyping(false);
      SetIsWaitingForAI(false);
      SetIsGeneratingLooks(false);
      SetRemainingLooks(0);
      SetCurrentLookMessageId(None);
      SetIsLookModalVisible(false);
      SetSelectedLookData(None);
      SetUploadedImages([]);
      SetCurrentChatId(newChatId);
    }

    method HandleLookClick(look: LookData)
      requires Valid()
      modifies this
      ensures Valid()
      ensures State() == old(State()).(selectedLookData := Some(look), isLookModalVisible := true)
    {
      SetSelectedLookData(Some(look));
      SetIsLookModalVisible(true);
    }

    method HandleImagesUploaded(images: seq<UploadedImage>)
      requires Valid()
      modifies this
      ensures Valid()
      ensures State() == old(State()).(uploadedImages := MergeImages(old(State()).uploadedImages, images))
    {
      SetUploadedImages(MergeImages(uploadedImages, images));
    }

    method HandleRemoveImage(imageId: string)
      requires Valid()
      modifies this
      ensures Valid()
      ensures State() == old(State()).(uploadedImages := RemoveById(old(State()).uploadedImages, imageId))
    {
      SetUploadedImages(RemoveById(uploadedImages, imageId));
    }

    method HandleInitialOptionSelect(option: string, newId: string, now: int)
      returns (dispatched: SendRequest)
      requires Valid()
      modifies this
      ensures Valid()
      ensures (State(), dispatched) == InitialOptionStep(old(State()), option, newId, now)
    {
      SetShowInitialScreen(false);
      SetMessages([UserMessage(newId, now, option, None)]);
      SetIsTyping(true);
      SetIsWaitingForAI(true);
      dispatched := ClientRequest(option, currentChatId, []);
    }

    method SetMessages(v: seq<Message>)
      modifies this
      ensures State() == old(State()).(messages := v)
    {
      messages := v;
    }

    method SetShowInitialScreen(v: bool)
      modifies this
      ensures State() == old(State()).(showInitialScreen := v)
    {
      showInitialScreen := v;
    }

    method SetInputValue(v: string)
      modifies this
      ensures State() == old(State()).(inputValue := v)
    {
      inputValue := v;
    }

    method SetIsTyping(v: bool)
      modifies this
      ensures State() == old(State()).(isTyping := v)
    {
      isTyping := v;
    }

    method SetIsWaitingForAI(v: bool)
      modifies this
      ensures State() == old(State()).(isWaitingForAI := v)
    {
      isWaitingForAI := v;
    }

    method SetIsGeneratingLooks(v: bool)
      modifies this
      ensures State() == old(State()).(isGeneratingLooks := v)
    {
      isGeneratingLooks := v;
    }

    method SetRemainingLooks(v: int)
      modifies this
      ensures State() == old(State()).(remainingLooks := v)
    {
      remainingLooks := v;
    }

    method SetQuickResponses(v: seq<QuickResponse>)
      modifies this
      ensures State() == old(State()).(quickResponses := v)
    {
      quickResponses := v;
    }

    method SetCurrentChatId(v: string)
      modifies this
      ensures State() == old(State()).(currentChatId := v)
    {
      currentChatId := v;
    }

    method SetIsLookModalVisible(v: bool)
      modifies this
      ensures State() == old(State()).(isLookModalVisible := v)
    {
      isLookModalVisible := v;
    }

    method SetSelectedLookData(v: Option<LookData>)
      modifies this
      ensures State() == old(State()).(selectedLookData := v)
    {
      selectedLookData := v;
    }

    method SetCurrentLookMessageId(v: Option<string>)
      modifies this
      ensures State() == old(State()).(currentLookMessageId := v)
    {
      currentLookMessageId := v;
    }

    method SetUploadedImages(v: seq<UploadedImage>)
      modifies this
      ensures State() == old(State()).(uploadedImages := v)
    {
      uploadedImages := v;
    }
  }
}
