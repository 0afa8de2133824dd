# AI styling chat, modelled in Dafny

This project models the core of a Next.js chat front end for an AI styling assistant. The user chats with an AI workflow, attaches photos, and receives "looks": outfits of up to five product slots. The workflow streams them in batches of one look each.

The model covers the chain that carries an answer from the workflow to the screen:

- **Correlation store.** A process-wide map from chat id to the latest stored answer. The webhook writes it; the poll endpoint reads and deletes it (consume once, last write wins).
- **Webhook** (`POST /api/ai-webhook`). It validates the two ids, classifies the payload as a look batch or a question, and stores a normalised entry.
- **Poll endpoint** (`GET /api/check-ai-response`). It hands back the stored entry for a chat id, at most once.
- **Page** (`src/app/page.tsx`). A class whose fields are the page's `useState` hooks. Every handler is a method that calls one setter per hook in source order. Each handler is specified by a pure step function on the value of all hooks together (`SessionState`).
  - Reconciliation either extends the look message being accumulated or opens a new one; questions become text messages with quick replies.
  - Send, send failure, the Enter key, clear, the look click, image merge and removal, and the initial option are all modelled.
  - An invariant (`Coherent`: distinct message ids, no description inside a thread look, a tracked look message is the last message) is proved preserved.
  - A countdown stream of batches is proved to build exactly one look message.
- **Look detail modal**: per-category navigation indices, the entries it displays, and title truncation.
- **Look strip** (`SimplifiedLookComponent`): the card thumbnails, the labels and the footer.
- **Chat input**: the send button's `disabled` expression, the placeholder, and the drop zone's staging and upload of images.
- **Photo picker**: a class with its uploading flag, input value, dialog openings and the batches it reports to the page.
- **Upload route**: validation, file name, two storage attempts, and the relay of the outcome.
- **Send-message route**: validation, configuration check, outbound payload, and the relay of the upstream status.

`Protocol` ties the stages together: a delivery accepted by the webhook is returned by the next poll and then gone. It also shows which parts of a batch reach the page's thread.

Clock values (`Date.now()`), random codes, object URLs and every `fetch` answer are parameters of the operations that use them. The page's id freshness is a precondition (see below).

### Quirks of the code

- **The page ignores `descricaoLooks`.** The webhook calls a payload a look when it has a `descricaoLooks` object or any `remaining`, and stores the description under `descricaoLooks`. The page instead tests `descricao_looks` (src/app/page.tsx:48), which a stored entry never has. So the page only treats an entry as a look when `remaining` is present. A batch with a description but no `remaining` is shown as an empty bot text message. The model follows the code (`Home.IsLookResponse`, `Protocol.DescriptionOnlyBatchShownAsText`).
- **A question leaves the generating flag alone.** The question branch of `processAIResponse` resets typing and waiting, but not `isGeneratingLooks`.
- **Enter ignores uploads.** `handleKeyPress` does not look at images still uploading, while the send button does (`ChatInput.EnterSendsWhileUploading`).
- **Non-array slots.** A slot holding a single product object rather than an array is shown in the detail modal, but has no thumbnail on the card (`SimplifiedLook.NonArraySlotOnlyInModal`).
- **Ids can collide.** Message ids and image ids are `Date.now()` strings, which can repeat. The model requires fresh ids where the invariant needs them.

## Model

| member | source | states |
|---|---|---|
| CorrelationStore.PutEntry | src/app/api/ai-webhook/route.ts:113-132 | a write replaces the entry at its key and keeps every other key's entry |
| CorrelationStore.TakeEntry | src/app/api/check-ai-response/route.ts:55-66 | a take returns the key's entry exactly when the key is present and leaves the map without that key, all else equal |
| CorrelationStore.ConsumeOnce | src/app/api/check-ai-response/route.ts:55-66 | a second take of one key with no write in between finds nothing and changes nothing |
| CorrelationStore.LastWriteWins | src/app/api/ai-webhook/route.ts:132 | of two writes to one key only the second is retrieved, and the key is empty afterwards |
| CorrelationStore.KeysIndependent | src/app/api/ai-webhook/route.ts:132 | writes and takes on different keys do not interfere |
| CorrelationStore.Store.constructor | src/app/api/ai-webhook/route.ts:113 | the store starts empty |
| CorrelationStore.Store.Get | src/app/api/check-ai-response/route.ts:55 | finds an entry exactly when the key is present, and that entry |
| CorrelationStore.Store.Set | src/app/api/ai-webhook/route.ts:132 | the store becomes PutEntry of the old store |
| CorrelationStore.Store.Delete | src/app/api/check-ai-response/route.ts:63 | only the given key is removed |
| AiWebhook.StoredEntryOf | src/app/api/ai-webhook/route.ts:113-131 | a look keeps its count, description and five slots verbatim and has no question; a question keeps its text and answers (empty when absent) and has no slots; both carry the arrival time |
| AiWebhook.IsLookRequest | src/app/api/ai-webhook/route.ts:67 | a description object, or `remaining` present at all; its consequences are stated by Ingest and Protocol.PageClassification |
| AiWebhook.KeyOf | src/app/api/ai-webhook/route.ts:132 | `chatId.toString()`; NumberAndStringIdsShareKey and DistinctNumericIdsDistinctKeys state what it keys |
| AiWebhook.Ingest | src/app/api/ai-webhook/route.ts:52-144 | an unparsable body gives 500; a falsy id gives 400 with no write; a question without text gives 400; truthy ids with a look or a question text are always accepted and write StoredEntryOf at the chat id's string key; a write happens exactly when the reply is accepted; a look is acknowledged with the look message and its count, description and slots, a question with the question message, its text and its answers (empty when absent) |
| AiWebhook.AckMatchesStoredEntry | src/app/api/ai-webhook/route.ts:86-132 | the acknowledgement echoes exactly the fields that were stored |
| AiWebhook.NumberAndStringIdsShareKey | src/app/api/ai-webhook/route.ts:132 | a numeric chat id and its decimal text select the same entry |
| AiWebhook.DistinctNumericIdsDistinctKeys | src/app/api/ai-webhook/route.ts:132 | distinct numeric chat ids never share an entry |
| AiWebhook.Post | src/app/api/ai-webhook/route.ts:52-144 | the reply is Ingest's reply, and the store changes by Ingest's write or not at all |
| CheckAiResponse.Poll | src/app/api/check-ai-response/route.ts:37-81 | missing chat id gives 400 with no change; a present key gives its entry and removes it; an absent key gives no data and no change |
| CheckAiResponse.PollReplyConsistent | src/app/api/check-ai-response/route.ts:59-72 | a reply carries data exactly when it says it has a response |
| CheckAiResponse.SecondPollFindsNothing | src/app/api/check-ai-response/route.ts:55-72 | an entry is delivered to at most one of two polls |
| CheckAiResponse.PollTouchesOnlyItsKey | src/app/api/check-ai-response/route.ts:63 | a poll removes only the queried key |
| CheckAiResponse.PollAfterWrites | src/app/api/check-ai-response/route.ts:55-66 | after two deliveries the poller receives exactly the last one |
| CheckAiResponse.Get | src/app/api/check-ai-response/route.ts:37-81 | the reply and the new store are those of Poll on the old store |
| SendMessageRoute.OutboundPayload | src/app/api/send-message/route.ts:37-47 | the payload has the four fixed keys with the configured name and id, the chat id and the message, plus `files-url` exactly when a non-empty list was sent |
| SendMessageRoute.Post | src/app/api/send-message/route.ts:9-83 | an unparsable body gives 500; a missing message or chat id gives 400; incomplete configuration gives 500; the outbound call happens exactly when all three checks pass, with OutboundPayload; an upstream 2xx gives 200 with the chat id, another status is relayed, a failure gives 500 |
| UploadPhotoRoute.Extension | src/app/api/upload-photo/route.ts:38 | the extension is the last dot segment of the name when that segment is non-empty, and "jpg" when it is empty; it never contains a dot |
| UploadPhotoRoute.FileNameWithoutDot | src/app/api/upload-photo/route.ts:38-41 | a name without a dot is used whole as stem and extension |
| UploadPhotoRoute.FileNamePiecesComeFromName | src/app/api/upload-photo/route.ts:38-41 | the dot-separated segments rejoin to the name, the stem has no dot, and the extension is the last segment when that is non-empty, "jpg" otherwise |
| UploadPhotoRoute.FileNameFor | src/app/api/upload-photo/route.ts:38-41 | stem, timestamp, random code and extension joined by `_` and `.`; its properties are FileNameWithoutDot and FileNamePiecesComeFromName |
| UploadPhotoRoute.Post | src/app/api/upload-photo/route.ts:8-166 | a body that is not a form, and a text field in place of the file, give 500; no file (or an empty text field), a non-image and a file over 10 MB give 400, missing configuration 500, all without a storage call; the second attempt is made exactly when the first answered a status other than 200; the last attempt decides the reply (failure 500, non-2xx relayed, non-JSON 500, null body 500, missing URL 500, else 200 with URL and file name); a success always has status 200 and a URL, an error never a 2xx status |
| LookDetailModal.IndexKeysOfCategories | src/components/LookDetailModal.tsx:39 | each slot name maps to its index key, and an index key maps to itself |
| LookDetailModal.IndexKeysDistinct | src/components/LookDetailModal.tsx:36-41 | the five index keys are pairwise distinct |
| LookDetailModal.IndexKey | src/components/LookDetailModal.tsx:39 | `replace('items', 'item')` on a leading "items"; IndexKeysOfCategories states its values |
| LookDetailModal.NormalizeSlot | src/components/LookDetailModal.tsx:66-75 | a missing slot is empty, an array is itself, a single object is a one-product list |
| LookDetailModal.EntryFor | src/components/LookDetailModal.tsx:76-85 | an entry has the slot's index key, the stored index (0 when missing), the list's length, and a product exactly when the index is inside the list, namely the product at that index |
| LookDetailModal.DisplayItems | src/components/LookDetailModal.tsx:61-88 | the entries of the non-empty slots in slot order, as DisplayItemsCover, DisplayItemsFromSlots and DisplayItemsOrdered state |
| LookDetailModal.DisplayItemsCover | src/components/LookDetailModal.tsx:61-88 | at most five entries, and a slot's entry is shown exactly when its list is non-empty |
| LookDetailModal.DisplayItemsFromSlots | src/components/LookDetailModal.tsx:61-88 | every shown entry is the entry of a non-empty slot |
| LookDetailModal.DisplayItemsOrdered | src/components/LookDetailModal.tsx:64-86 | entries come in slot order |
| LookDetailModal.Position | src/components/LookDetailModal.tsx:64 | the slot position of an index key, 5 for any other key |
| LookDetailModal.ZeroIndices | src/components/LookDetailModal.tsx:34-44 | exactly the five index keys, each at 0 |
| LookDetailModal.NextIndices | src/components/LookDetailModal.tsx:47-52 | only the given key changes: it goes up by one, or is capped at total-1, and stays in range when it was |
| LookDetailModal.PreviousIndices | src/components/LookDetailModal.tsx:54-59 | only the given key changes: it goes down by one but never below 0 |
| LookDetailModal.NextThenPrevious | src/components/LookDetailModal.tsx:47-59 | away from the last product, next then previous returns to the same index |
| LookDetailModal.PreviousThenNext | src/components/LookDetailModal.tsx:47-59 | away from the first product, previous then next returns to the same index |
| LookDetailModal.ResetIsInRange | src/components/LookDetailModal.tsx:34-44 | after a reset every index is in range and every shown entry displays its first product |
| LookDetailModal.NextKeepsInRange | src/components/LookDetailModal.tsx:47-52 | the next button keeps all indices in range |
| LookDetailModal.PreviousKeepsInRange | src/components/LookDetailModal.tsx:54-59 | the previous button keeps all indices in range |
| LookDetailModal.InRangeShowsProducts | src/components/LookDetailModal.tsx:76-85 | with indices in range every shown entry has a product |
| LookDetailModal.ButtonsMatchHandlers | src/components/LookDetailModal.tsx:143-166 | an arrow is shown exactly when pressing it moves the index by one, and the key a button passes back selects its own slot |
| LookDetailModal.DisplayTitle | src/components/LookDetailModal.tsx:194-196 | a title of up to 60 characters is kept; a longer one becomes its first 60 characters and "..." |
| LookDetailModal.DisplayTitleBounded | src/components/LookDetailModal.tsx:194-196 | a displayed title has at most 63 characters and starts with the title's first (up to) 60 characters |
| LookDetailModal.LookDetailModal.constructor | src/components/LookDetailModal.tsx:27 | the indices start empty |
| LookDetailModal.LookDetailModal.SelectedLookChanged | src/components/LookDetailModal.tsx:34-44 | a selected look resets the indices to ZeroIndices; no look leaves them |
| LookDetailModal.LookDetailModal.HandleNextItem | src/components/LookDetailModal.tsx:47-52 | the indices become NextIndices of the old ones |
| LookDetailModal.LookDetailModal.HandlePreviousItem | src/components/LookDetailModal.tsx:54-59 | the indices become PreviousIndices of the old ones |
| LookDetailModal.LookDetailModal.GetItemsForDisplay | src/components/LookDetailModal.tsx:61-88 | the loop returns DisplayItems of the look and the current indices |
| SimplifiedLook.FirstOf | src/components/SimplifiedLookComponent.tsx:12-16 | a first product exists exactly for a non-empty array slot, and it is element 0 |
| SimplifiedLook.GetFirstItemFromEachCategory | src/components/SimplifiedLookComponent.tsx:10-20 | the five `if`s push exactly the present first products, tagged, in slot order |
| SimplifiedLook.FirstItemsCover | src/components/SimplifiedLookComponent.tsx:10-20 | at most five thumbnails, and slot n has one exactly when it is a non-empty array |
| SimplifiedLook.FirstItemsFromSlots | src/components/SimplifiedLookComponent.tsx:10-20 | each thumbnail is the first product of the slot it is tagged with, in slot order |
| SimplifiedLook.NonArraySlotOnlyInModal | src/components/SimplifiedLookComponent.tsx:12-16 | a single-object slot has no thumbnail but is shown in the detail modal |
| SimplifiedLook.LookLabel | src/components/SimplifiedLookComponent.tsx:101 | a label is "Look " followed by the 1-based card number |
| SimplifiedLook.CardLabels | src/components/SimplifiedLookComponent.tsx:27 | one label per look, in order |
| SimplifiedLook.LabelsDistinct | src/components/SimplifiedLookComponent.tsx:40-101 | two cards never carry the same label |
| SimplifiedLook.Plural | src/components/SimplifiedLookComponent.tsx:117 | the suffix is empty exactly for a count of one |
| SimplifiedLook.FooterText | src/components/SimplifiedLookComponent.tsx:115-121 | the footer; its meaning is stated by FooterSingular, FooterPlural, FooterDone and FooterDistinguishesCounts |
| SimplifiedLook.FooterSingular | src/components/SimplifiedLookComponent.tsx:115-121 | one pending look is announced in the singular |
| SimplifiedLook.FooterPlural | src/components/SimplifiedLookComponent.tsx:115-121 | several pending looks are announced with both words in the plural |
| SimplifiedLook.FooterDone | src/components/SimplifiedLookComponent.tsx:115-121 | with nothing pending the footer is the completion text |
| SimplifiedLook.FooterDistinguishesCounts | src/components/SimplifiedLookComponent.tsx:115-121 | different pending counts, and pending versus done, give different footers |
| ChatInput.SendDisabledSimplified | src/components/ChatInput.tsx:224-230 | the button is disabled exactly when waiting, generating, the input is blank, or an image is uploading: images never enable it alone |
| ChatInput.SendableIsValid | src/components/ChatInput.tsx:38 | an image the page would send makes `hasValidImages` true, and with nothing uploading the converse holds |
| ChatInput.EnabledButtonSends | src/components/ChatInput.tsx:224-230 | pressing an enabled button always makes the page send |
| ChatInput.EnterSendsWhileUploading | src/app/page.tsx:271-276 | with text and no wait, Enter sends while an upload disables the button, and the images still uploading are not sent |
| ChatInput.PlaceholderPriority | src/components/ChatInput.tsx:197-205 | generating wins over waiting, which wins over valid images, each in both directions |
| ChatInput.GeneratingPlaceholderWording | src/components/ChatInput.tsx:198-199 | "look" is plural exactly when the count is not one |
| ChatInput.Drop | src/components/ChatInput.tsx:48-83 | waiting, generating or no files ignore the drop; no image among the files is rejected; otherwise the image files are staged as uploading previews, in order, with a warning exactly when some file was skipped |
| ChatInput.UploadedBatch | src/components/ChatInput.tsx:85-122 | the final batch keeps the staged ids in order, nothing is uploading, a success takes its URL and a failure carries an error |
| ChatInput.DropThenUploadExtendsStaged | src/components/ChatInput.tsx:48-122 | with fresh distinct ids, the two reports leave the page with its earlier images plus the final batch |
| PhotoUpload.ImageFiles | src/components/PhotoUpload.tsx:23-25 | the kept files are exactly the image files, and all are kept exactly when all are images |
| PhotoUpload.ImageFilesInOrder | src/components/PhotoUpload.tsx:23-25 | the image files are kept one for one in selection order: a file is kept exactly when it is an image, and a concatenation gives the concatenated results |
| PhotoUpload.Previews | src/components/PhotoUpload.tsx:51-58 | one preview per kept file, in order, uploading, with neither URL nor error |
| PhotoUpload.FinalImage | src/components/PhotoUpload.tsx:64-91 | a success takes the URL; a failure takes the error, or "Upload failed", or the thrown message; either way the image stops uploading and keeps id, file and preview |
| PhotoUpload.FinalImages | src/components/PhotoUpload.tsx:62-93 | one settled entry per staged image, same ids in the same order |
| PhotoUpload.FinalImagesUrlOrError | src/components/PhotoUpload.tsx:62-93 | a settled fresh preview has an error exactly when its upload failed, and a URL only when it succeeded |
| PhotoUpload.RouteReplyDecidesSendable | src/components/PhotoUpload.tsx:72-91 | against the upload route, a preview becomes sendable exactly when the route reported success |
| PhotoUpload.UploadReportsExtendStaged | src/components/PhotoUpload.tsx:48-99 | with fresh distinct ids, the two reports grow the page's images by the final entries only |
| PhotoUpload.PhotoUpload.constructor | src/components/PhotoUpload.tsx:13 | not uploading, nothing reported |
| PhotoUpload.PhotoUpload.HandleButtonClick | src/components/PhotoUpload.tsx:15-18 | the dialog opens exactly when neither disabled nor uploading |
| PhotoUpload.PhotoUpload.HandleFileSelect | src/components/PhotoUpload.tsx:20-60 | no files does nothing; no image shows the error and clears the input; otherwise uploading starts, the previews are reported once, the input is cleared, and the warning appears exactly when a file was skipped |
| PhotoUpload.PhotoUpload.FinishUpload | src/components/PhotoUpload.tsx:62-98 | the final batch is reported after the previews and uploading ends |
| PhotoUpload.PhotoUpload.HandleDrop | src/components/PhotoUpload.tsx:106-114 | ignored while disabled or uploading; otherwise the three cases of a file selection: no files does nothing, no image shows the error and clears the input, image files start uploading and are reported once as previews, with the warning exactly when a file was skipped; the dialog count never changes |
| Home.PlaceLook | src/app/page.tsx:67-93 | a batch extends the tracked look message when the last message is a look, otherwise appends a new look message that becomes tracked |
| Home.QuickResponsesFor | src/app/page.tsx:124-133 | one quick reply per answer, in order, none without answers |
| Home.IsLookResponse | src/app/page.tsx:48 | the page's discriminator; Protocol.PageClassification states that it reduces to the presence of `remaining` |
| Home.NewLook | src/app/page.tsx:52-61 | the look the page keeps; Protocol.DescriptionNeverReachesThread and LookBatchReachesThread state what it carries |
| Home.Reconcile | src/app/page.tsx:46-137 | inputs and modal are untouched; a look batch sets the remaining count and the waiting flags from it and either opens or extends a look message; a question appends a text message and sets the quick replies |
| Home.SendableUrls | src/app/page.tsx:229-231 | exactly the URLs of images with a URL, no error and not uploading |
| Home.SendableUrlsInOrder | src/app/page.tsx:229-231 | the URLs come image by image in staged order: one per sendable image, none for another, and a concatenation gives the concatenated URLs |
| Home.ResolvedText | src/app/page.tsx:226 | the message is empty exactly when no text was passed and the input is blank |
| Home.ClientRequest | src/app/page.tsx:176-184 | the request carries the message and chat id, and file URLs exactly when there are any |
| Home.SendStep | src/app/page.tsx:225-263 | an empty message changes nothing and sends nothing; otherwise the user message is appended, input and images are cleared, the page waits, and the request is sent |
| Home.SendFailureStep | src/app/page.tsx:205-221 | an error message is appended and every waiting flag and the tracked look are reset |
| Home.KeyPressStep | src/app/page.tsx:271-276 | Enter without shift, while not waiting or generating, is a send; anything else changes nothing |
| Home.InitialOptionStep | src/app/page.tsx:327-342 | the thread becomes the option as a user message, the initial screen closes, the page types and waits, every other hook is unchanged, and the option is sent under the current chat id |
| Home.ClearStep | src/app/page.tsx:278-292 | everything returns to the initial state under the new chat id, except the input |
| Home.FindById | src/app/page.tsx:314 | finds an image with the id exactly when one is present |
| Home.FindFirst | src/app/page.tsx:314 | `find` returns the first image with the id |
| Home.UpdateExisting | src/app/page.tsx:313-317 | each earlier image is replaced by the incoming image of the same id, if any |
| Home.NewOnes | src/app/page.tsx:310 | exactly the incoming images with an id not yet present |
| Home.NewOnesInOrder | src/app/page.tsx:310 | the unseen entries are kept one for one in incoming order: an entry is kept exactly when its id is unseen, and a concatenation gives the concatenated results |
| Home.MergeImages | src/app/page.tsx:304-321 | specified by MergeImagesProperties and PreviewThenFinal: updated earlier images, then the unseen incoming ones |
| Home.MergeImagesProperties | src/app/page.tsx:304-321 | the merge keeps earlier images in place, each replaced by the first incoming image with its id (the prefix is exactly UpdateExisting) and kept when no incoming image has it; the tail is exactly NewOnes of the incoming images, the unseen ones in incoming order; every incoming id is present afterwards |
| Home.PreviewThenFinal | src/app/page.tsx:304-321 | fresh distinct previews are appended, and their final versions then replace them in place |
| Home.RemoveById | src/app/page.tsx:323-325 | exactly the images with another id remain |
| Home.RemoveByIdInOrder | src/app/page.tsx:323-325 | the other entries stay one for one in their order: an entry stays exactly when it has another id, and a concatenation gives the concatenated results |
| Home.AppendKeepsThread | src/app/page.tsx:73-91 | appending a fresh undescribed message keeps the thread well formed |
| Home.ReplaceLastKeepsThread | src/app/page.tsx:69-72 | replacing the last message under its own id keeps the thread well formed |
| Home.ExtendLastOnly | src/app/page.tsx:69-72 | extending the tracked message changes only the last message |
| Home.ContinuingBatchExtendsLastOnly | src/app/page.tsx:67-93 | a continuing batch changes only the last message, by adding the look |
| Home.ReconcileKeepsCoherent | src/app/page.tsx:46-137 | reconciliation keeps the page coherent |
| Home.SendKeepsCoherent | src/app/page.tsx:225-263 | a send keeps the page coherent |
| Home.SendFailureKeepsCoherent | src/app/page.tsx:205-221 | a failed send keeps the page coherent |
| Home.StreamStart | src/app/page.tsx:67-93 | the first batch of a countdown opens the look message |
| Home.StreamNext | src/app/page.tsx:67-93 | a further batch extends that message by its look |
| Home.CountdownStream | src/app/page.tsx:46-107 | a countdown stream builds one look message holding the batches in order, and the page keeps generating exactly while batches are announced |
| Home.QuestionEndsAccumulation | src/app/page.tsx:108-136 | a question between batches makes the next batch open a new look message |
| Home.SendEndsAccumulation | src/app/page.tsx:240-241 | a send between batches makes a late batch open a new look message after the user's message |
| Home.Home.constructor | src/app/page.tsx:21-33 | the hooks start at their initial values, coherent |
| Home.Home.ProcessAIResponse | src/app/page.tsx:46-137 | the state becomes Reconcile of the old state, coherence kept |
| Home.Home.ApplyLookBatch | src/app/page.tsx:48-107 | the look branch's setters produce Reconcile of the old state |
| Home.Home.ApplyQuestion | src/app/page.tsx:108-136 | the question branch's setters produce Reconcile of the old state |
| Home.Home.HandleSendMessage | src/app/page.tsx:225-263 | state and dispatched request are SendStep of the old state, coherence kept |
| Home.Home.SendMessageFailed | src/app/page.tsx:205-221 | the state becomes SendFailureStep of the old state, coherence kept |
| Home.Home.HandleKeyPress | src/app/page.tsx:271-276 | state and request are KeyPressStep of the old state |
| Home.Home.ClearChat | src/app/page.tsx:278-292 | the state becomes ClearStep of the old state |
| Home.Home.HandleLookClick | src/app/page.tsx:298-301 | the look is selected and the modal shown, nothing else changes |
| Home.Home.HandleImagesUploaded | src/app/page.tsx:304-321 | the images become the merge of old and incoming, nothing else changes |
| Home.Home.HandleRemoveImage | src/app/page.tsx:323-325 | the image with the id is removed, nothing else changes |
| Home.Home.HandleInitialOptionSelect | src/app/page.tsx:327-342 | state and request are InitialOptionStep of the old state |
| Home.Home.SetMessages | src/app/page.tsx:21 | only `messages` changes |
| Home.Home.SetShowInitialScreen | src/app/page.tsx:22 | only `showInitialScreen` changes |
| Home.Home.SetInputValue | src/app/page.tsx:23 | only `inputValue` changes |
| Home.Home.SetIsTyping | src/app/page.tsx:24 | only `isTyping` changes |
| Home.Home.SetIsWaitingForAI | src/app/page.tsx:25 | only `isWaitingForAI` changes |
| Home.Home.SetIsGeneratingLooks | src/app/page.tsx:26 | only `isGeneratingLooks` changes |
| Home.Home.SetRemainingLooks | src/app/page.tsx:27 | only `remainingLooks` changes |
| Home.Home.SetQuickResponses | src/app/page.tsx:28 | only `quickResponses` changes |
| Home.Home.SetCurrentChatId | src/app/page.tsx:29 | only `currentChatId` changes |
| Home.Home.SetIsLookModalVisible | src/app/page.tsx:30 | only `isLookModalVisible` changes |
| Home.Home.SetSelectedLookData | src/app/page.tsx:31 | only `selectedLookData` changes |
| Home.Home.SetCurrentLookMessageId | src/app/page.tsx:32 | only `currentLookMessageId` changes |
| Home.Home.SetUploadedImages | src/app/page.tsx:33 | only `uploadedImages` changes |
| Protocol.DeliveryThenPoll | src/app/api/check-ai-response/route.ts:55-66 | an accepted delivery is returned whole by the next poll of its chat id, then removed, with every other key kept |
| Protocol.PageClassification | src/app/page.tsx:48 | the page treats a stored entry as a look exactly when `remaining` is present, and then the webhook did too |
| Protocol.DescriptionOnlyBatchShownAsText | src/app/page.tsx:48 | a batch with a description but no count is accepted as a look, but the page shows it as an empty text message |
| Protocol.DescriptionNeverReachesThread | src/app/page.tsx:52-61 | a look's description is stored but never placed in the thread |
| Protocol.QuestionReachesThread | src/app/page.tsx:108-136 | a delivered question reaches the thread as text, with one quick reply per answer in order |
| Protocol.LookBatchReachesThread | src/app/page.tsx:48-107 | a delivered batch reaches the thread with its five slots and count intact, and the page waits exactly while the count is positive |
| Common.TrimEmptyIffAllSpace | src/app/page.tsx:226 | `trim()` gives the empty string exactly for a blank input |
| Common.Trim | src/app/page.tsx:226 | `trim()`; TrimEmptyIffAllSpace states when it is empty |
| Common.JoinSplit | src/app/api/upload-photo/route.ts:38-41 | joining the dot segments gives back the name |
| Common.IntToStringInjective | src/app/api/ai-webhook/route.ts:132 | distinct numbers have distinct decimal texts |

## Left out

- JSX, styling, antd components and scrolling (`scrollIntoView`) are not modelled; only state and the values the views derive are.
- The description modal, the product detail modal and the product-details route are not part of this model. `MessageList`, `ChatHeader`, `ImagePreview` and `InitialScreen` are not part of it either.
- The page's `setInterval` poller (src/app/page.tsx:140-171) is not a method. One poll is `CheckAiResponse.Get` followed by `Home.Home.ProcessAIResponse`. Timer scheduling is not modelled, and neither is React's batching of state updates: the model applies each setter at once. The consequence is the race between the tracked id set at line 74 and at line 104.
- The uploads of a batch run concurrently under `Promise.all`. The model takes each request's settled answer as an input, so their interleaving is not modelled.
- `fetch`, `response.json()`, environment variables, `Buffer`, base64, `FormData`, `URL.createObjectURL`, toasts (only a `Notice` value), `console` logging and `e.preventDefault()` are left out or turned into inputs.
- `Date.now()`, `new Date()` and `Math.random()` values are parameters. The model does not capture that two ids from one millisecond collide.
- `parseInt` of the configured client id and the chat id in the send-message route is recorded as `ParseIntOf(text)`, not evaluated.
- Price formatting (`toFixed`) and floating point are not modelled.
- AiWebhook.KeyOf: a numeric `clienteId` or `chatId` is an integer (`JsId.IdNumber`), so the key `toString()` gives for a fractional or exponent-form number such as `1.5` or `1e21` is not modelled; the page only produces integer ids (`parseInt`, `Date.now()`).
- LookDetailModal.LookDetailModal.SelectedLookChanged: the source runs this reset as an effect keyed on the identity of `selectedLookData`, after the render (src/components/LookDetailModal.tsx:34-44); the model leaves it to the caller to invoke the method, so it does not capture that reopening the same look object (src/app/page.tsx:298-301) keeps the old indices, nor that the first render of a new look reads the previous look's indices.
- DisplayTitle: counts Dafny characters, where JavaScript's `length` counts UTF-16 code units.
- LookDetailModal.IndexKey: models `replace('items', 'item')` for a leading "items" only, which covers every name the component passes.
- The 500 answer of the poll route's `catch` (src/app/api/check-ai-response/route.ts:73-80) is not modelled: with the store as a map, nothing in the handler can throw.
- UploadPhotoRoute.Post: the contents of the multipart and JSON bodies sent to storage are not modelled, only which attempts are made and what their answers lead to.
- Home.QuickResponsesFor: the quick-reply ids are stamped with the message's `newId`, where the source reads `Date.now()` again for them (src/app/page.tsx:126); no property depends on the two readings being equal or different.
- `handleQuickResponse` (src/app/page.tsx:267-269) is `Home.Home.HandleSendMessage` with the reply's text and gets no member of its own.
- `handleDragOver`, the drag-highlight state of the inputs and the hidden file input's `onChange` wiring are not modelled.
