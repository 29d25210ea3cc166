# DevFest-App: a verified model of context assembly, persistence and the chat views

DevFest-App is a React front end over the Gemini API. It has three chat views:
- a training lab, which chats with a model steered by few-shot examples and uploaded PDFs;
- an image-analysis lab;
- a reasoning lab, which uses a thinking budget.

This project models in Dafny the part of the application that is deterministic:

- **Request assembly** (`GeminiService`, from `services/geminiService.ts`). For the trained chat, this covers:
  - the system instruction: the persona line, the numbered example blocks and the document-grounding sentence;
  - the parts list: one inline part per document, then one text part holding the conversation history and the current message.

  It also covers the parts of the vision request, the request of the reasoning call, the mapping the legacy single-shot call applies, and the fallback texts that replace an empty answer. Each `Build…` method runs the source's `+=`/`push` loop and is proved equal to a specification function. Lemmas state the layout properties of those functions.
- **Persistence** (`StorageService`, from `services/storageService.ts`). A `Storage` object holds two stores:
  - the two localStorage entries, as a map from key to parsed entry;
  - the IndexedDB object store, as a map from document id to document.

  Each engine has an availability flag. The saves and loads swallow an unavailable engine's failures, as the source's `try` blocks do. `clearAllData` removes the localStorage keys outside its `try`, so an unavailable localStorage makes it fail before the object store is cleared. Saving documents clears the store and then puts each document. Loading lists the store in key order. `clearAllData` removes both keys and empties the store.
- **The three views** (`TrainingLabView`, `VisionLabView`, `ReasoningLabView`). Each is a class whose fields are the component's React state, with one method per handler:
  - A send is split at its `await`. `HandleSend` applies the guard, appends the user turn, clears the input, sets loading and returns the request it makes. `ReceiveReply` takes the API outcome as a parameter, `Responded(text)` or `Failed`. It appends exactly one model turn and clears loading.
  - The training view also models its mount effect and its save effects. Saves fire only once `isInitialized` holds. The class invariant `Valid()` says that the store then holds what the view shows.

Supporting modules:
- `Wrappers`: `Option`.
- `Seqs`: `Filter`, `Concat`.
- `Text`: JavaScript's `trim`, `split` with a one-character separator, `Number.prototype.toString` for naturals, and data URLs.
- `Types`: the records of `types.ts`.

Each of these is one `.dfy` file.

## Model

| member | source | states |
|---|---|---|
| GeminiService.Settle | services/geminiService.ts:38 | an empty answer text resolves to the fallback, a non-empty one passes unchanged, and the call is rejected exactly when the API call fails |
| Text.TrimEmptyIff | components/TrainingLab.tsx:68 | the guard `!s.trim()` holds exactly when the text is white space only, the empty text included |
| GeminiService.GenerateVisionContent | services/geminiService.ts:13-31 | the parts are an inline image part first exactly when the image is truthy, carrying that payload and the media type (defaulting to image/jpeg), followed by exactly one text part holding the prompt |
| GeminiService.VisionRequest | services/geminiService.ts:20-36 | the vision call goes to gemini-2.5-flash with an inline image part first exactly when the image is truthy, carrying the payload and the media type defaulting to image/jpeg, and the prompt as the last of one or two parts |
| GeminiService.ReasoningRequest | services/geminiService.ts:48-57 | the reasoning call goes to gemini-3-pro-preview with the prompt as its only content and a thinking budget of 2048 |
| GeminiService.BuildSystemInstruction | services/geminiService.ts:79-91 | the instruction the `+=` loop builds equals the specification `SystemInstruction(examples, documents)` |
| GeminiService.DocumentParts | services/geminiService.ts:99-106 | one inline part per document, and part k carries document k's base64 payload and media type |
| GeminiService.BuildDocumentParts | services/geminiService.ts:94-106 | the parts the `push` loop builds equal `DocumentParts(documents)` |
| GeminiService.BuildPrompt | services/geminiService.ts:114-127 | the prompt the `+=` loop builds equals `ChatPrompt(current, history)` |
| GeminiService.RoleLabel | services/geminiService.ts:121 | `user` turns are labelled `Usuario`, and every other role `Asistente` |
| GeminiService.ChatWithTrainedModel | services/geminiService.ts:69-137 | the request sent is gemini-2.5-flash with the document parts followed by the prompt part, the system instruction and temperature 0.3 |
| GeminiService.ExampleListing | services/geminiService.ts:83-85 | one block per example, in insertion order |
| GeminiService.LegacyExamples | services/geminiService.ts:156-160 | the mapping keeps every example's input and output at its index and gives pairwise-distinct ids |
| GeminiService.LegacyIdsDistinct | services/geminiService.ts:157 | the ids `legacy-i` differ for different indices i |
| GeminiService.GenerateTrainedContent | services/geminiService.ts:151-162 | the legacy call has no history and no documents: its only part is the labelled prompt, and its instruction has no grounding sentence |
| GeminiService.InstructionStartsWithPersona | services/geminiService.ts:79 | every system instruction starts with the persona line |
| GeminiService.ExampleBlocksInOrder | services/geminiService.ts:83-85 | the example text is the concatenation of each example's block, numbered from 1, in order |
| GeminiService.InstructionLayout | services/geminiService.ts:79-91 | with examples, the instruction is persona, imitation header, the blocks in order and the closing line; without examples none of that text appears |
| GeminiService.GroundingIff | services/geminiService.ts:89-91 | the instruction ends with the grounding sentence if and only if at least one document is attached |
| GeminiService.HistoryHeaderIff | services/geminiService.ts:117-125 | the prompt starts with the history header if and only if the history is non-empty |
| GeminiService.PromptEndsWithCurrent | services/geminiService.ts:127 | the prompt always ends with `Usuario actual: ` followed by the current message |
| GeminiService.HistoryListing | services/geminiService.ts:119-123 | one labelled line per history turn |
| GeminiService.HistoryLinesChronological | services/geminiService.ts:119-123 | the history lines are, in chronological order, the lines of the non-system turns only |
| GeminiService.SystemOnlyHistory | services/geminiService.ts:117-125 | a history of system turns alone still yields the header and footer, with nothing between them |
| GeminiService.TrainedChatParts | services/geminiService.ts:94-106 | the request has one part more than there are documents: the documents' inline parts in order, then the prompt |
| StorageService.ExamplesIn | services/storageService.ts:17-24 | a missing or unparseable examples entry loads as the empty list; a stored list loads unchanged |
| StorageService.ChatIn | services/storageService.ts:34-41 | a missing or unparseable chat entry loads as the empty list; a stored log loads unchanged |
| StorageService.IdSet | services/storageService.ts:57 | every document's id is among the keys the documents occupy |
| StorageService.IdSetWitness | services/storageService.ts:57 | every occupied key is the id of some document |
| StorageService.Keyed | services/storageService.ts:71-75 | the store after clear-then-put has exactly the documents' ids as keys, each record under its own id |
| StorageService.KeyedLastWins | services/storageService.ts:73-75 | of two documents with the same id, the later one put is the one stored |
| StorageService.KeyedValueIn | services/storageService.ts:73-75 | every stored record is one of the documents saved |
| StorageService.DistinctIdsCard | services/storageService.ts:57 | documents with distinct ids occupy as many keys as there are documents |
| StorageService.LexIrreflexive | services/storageService.ts:91 | key order is irreflexive |
| StorageService.LexTransitive | services/storageService.ts:91 | key order is transitive |
| StorageService.LexTotal | services/storageService.ts:91 | any two distinct keys are ordered |
| StorageService.LeastExists | services/storageService.ts:91 | every non-empty set of keys has a least key, so `getAll` can list the store in key order |
| StorageService.SortedDistinct | services/storageService.ts:91 | a list in strictly increasing key order has distinct ids |
| StorageService.ListedIds | services/storageService.ts:91 | a key-order listing covers exactly the store's keys, once each |
| StorageService.DocumentsRoundTrip | services/storageService.ts:63-100 | loading after saving documents with distinct ids returns as many documents as were saved, and the same documents, though in key order |
| StorageService.ResaveListed | services/storageService.ts:63-100 | saving what was loaded leaves the store as it was |
| StorageService.Storage.constructor | services/storageService.ts:54-58 | a store with the given entries, object store and availability, whose every record sits under its own id, the key path |
| StorageService.Storage.SaveExamples | services/storageService.ts:9-15 | the examples key is overwritten when localStorage is available; otherwise nothing changes |
| StorageService.Storage.LoadExamples | services/storageService.ts:17-24 | returns the parsed examples, or the empty list when localStorage is unavailable |
| StorageService.Storage.SaveChatHistory | services/storageService.ts:26-32 | the chat key is overwritten when localStorage is available; otherwise nothing changes |
| StorageService.Storage.LoadChatHistory | services/storageService.ts:34-41 | returns the parsed chat log, or the empty list when localStorage is unavailable |
| StorageService.Storage.SaveDocuments | services/storageService.ts:63-83 | with the database available, the object store becomes exactly the documents keyed by id, whatever it held before; otherwise nothing changes |
| StorageService.Storage.LoadDocuments | services/storageService.ts:85-100 | returns every stored record once, in increasing key order, or the empty list when the database cannot be opened |
| StorageService.Storage.ClearAllData | services/storageService.ts:102-111 | both keys are removed and the object store is emptied; an unavailable localStorage makes the call fail before the database is touched |
| StorageService.LocalRoundTrip | services/storageService.ts:9-41 | loading after saving returns what was saved, for either key |
| StorageService.KeysIsolated | services/storageService.ts:11 | saving examples does not change the loaded chat, and saving chat does not change the loaded examples |
| StorageService.ClearedLoadsEmpty | services/storageService.ts:102-104 | after both keys are removed, both loads return the empty list |
| TrainingLabView.NewDocumentPayload | components/TrainingLab.tsx:93 | for a data URL as the file reader writes it, the stored base64 text is exactly the file's payload |
| TrainingLabView.NewExample | components/TrainingLab.tsx:69-73 | the new example's id is the decimal rendering of the time, and its input and output are the trimmed drafts, which trimming again leaves unchanged |
| TrainingLabView.NewDocument | components/TrainingLab.tsx:93-100 | the new document keeps the file's name, type and size, takes the time as its id, and stores the data URL's second comma-separated segment, which holds no comma |
| TrainingLabView.WithoutExample | components/TrainingLab.tsx:80 | what remains holds no example with the id, only examples from the list, and every example of the list with another id |
| TrainingLabView.WithoutDocument | components/TrainingLab.tsx:108 | what remains holds no document with the id, only documents from the list, and every document of the list with another id |
| TrainingLabView.RemoveExampleSpec | components/TrainingLab.tsx:79-81 | removal drops every example with the id and keeps every other one, in order |
| TrainingLabView.RemoveDocumentSpec | components/TrainingLab.tsx:107-109 | removal drops every document with the id and keeps every other one, in order |
| TrainingLabView.ReplyText | components/TrainingLab.tsx:133-145 | the model turn is the answer (or the inference fallback for an empty one), or the connection error text when the call fails; never empty |
| TrainingLabView.TrainingLab.constructor | components/TrainingLab.tsx:8-20 | all lists and drafts empty, not loading, not initialized |
| TrainingLabView.TrainingLab.PersistExamples | components/TrainingLab.tsx:46-49 | the examples are saved only once the view is initialized |
| TrainingLabView.TrainingLab.PersistDocuments | components/TrainingLab.tsx:51-54 | the documents are saved only once the view is initialized |
| TrainingLabView.TrainingLab.PersistMessages | components/TrainingLab.tsx:56-59 | the messages are saved only once the view is initialized |
| TrainingLabView.TrainingLab.Initialize | components/TrainingLab.tsx:26-59 | the view shows what was loaded, or empty lists where an engine failed, and it becomes initialized in every case. The save effects this triggers leave the object store as it was and the loaded values unchanged; a missing or unparseable localStorage entry is rewritten as an empty list |
| TrainingLabView.TrainingLab.EditNewInput | components/TrainingLab.tsx:13 | the example input draft becomes the typed text |
| TrainingLabView.TrainingLab.EditNewOutput | components/TrainingLab.tsx:14 | the example output draft becomes the typed text |
| TrainingLabView.TrainingLab.EditInput | components/TrainingLab.tsx:19 | the chat input becomes the typed text |
| TrainingLabView.TrainingLab.AddExample | components/TrainingLab.tsx:67-77 | with a blank trimmed draft nothing changes; otherwise exactly one example with the trimmed texts is appended, the earlier ones kept, and both drafts cleared; localStorage is not written before the initial load |
| TrainingLabView.TrainingLab.PostExample | components/TrainingLab.tsx:74-76 | the example is appended, both drafts cleared, and localStorage is written only once the view is initialized |
| TrainingLabView.TrainingLab.RemoveExample | components/TrainingLab.tsx:79-81 | the examples become the filtered list, and the store follows once the view is initialized, not before |
| TrainingLabView.TrainingLab.HandleFileUpload | components/TrainingLab.tsx:84-105 | no file changes nothing; a non-PDF file raises the alert and changes nothing; a PDF appends exactly one document carrying the data URL's second comma-separated segment; the object store is not written before the initial load |
| TrainingLabView.TrainingLab.RemoveDocument | components/TrainingLab.tsx:107-109 | the documents become the filtered list, and the store follows once the view is initialized, not before |
| TrainingLabView.TrainingLab.HandleSend | components/TrainingLab.tsx:112-131 | a blank input or a pending request makes the send a no-op; otherwise one user turn is appended, the input cleared, loading set, and the request is assembled from the history before that turn; localStorage is not written before the initial load |
| TrainingLabView.TrainingLab.PostUserTurn | components/TrainingLab.tsx:121-123 | the user turn is appended, the input cleared and loading set; the turn is saved only once the view is initialized |
| TrainingLabView.TrainingLab.ReceiveReply | components/TrainingLab.tsx:133-148 | exactly one model turn is appended, and loading ends whatever the outcome; the turn is saved only once the view is initialized |
| TrainingLabView.TrainingLab.HandleReset | components/TrainingLab.tsx:151-158 | with confirmation all three lists are emptied and both loads then return the empty list; before the initial load the store changes only by `clearAllData`; without confirmation nothing changes |
| VisionLabView.PromptFor | components/VisionLab.tsx:43 | the default prompt replaces the content only when the content is the empty string |
| VisionLabView.ImagePayload | components/VisionLab.tsx:39 | no payload without a truthy selection; a selection with a comma yields a payload, and the payload holds no comma |
| VisionLabView.ImageMime | components/VisionLab.tsx:40 | image/jpeg without a truthy selection; otherwise a media type whenever the part before the first `;` holds a colon, and the media type holds no colon |
| VisionLabView.DataUrlDecodes | components/VisionLab.tsx:39-40 | for a data URL as the file reader writes it, the view recovers exactly its payload and its media type |
| VisionLabView.ImageTurnRequest | components/VisionLab.tsx:39-46 | a picked image reaches the service as one inline part with its payload and media type, followed by the prompt |
| VisionLabView.ReplyText | components/VisionLab.tsx:48-56 | the model turn is the answer (or the vision fallback for an empty one), or the request error text when the call fails; never empty |
| VisionLabView.UserTurn | components/VisionLab.tsx:26-31 | the user turn carries the untrimmed input, and carries the image exactly when the selection is truthy |
| VisionLabView.VisionLab.constructor | components/VisionLab.tsx:6-9 | no turns, empty input, not loading, no image |
| VisionLabView.VisionLab.EditInput | components/VisionLab.tsx:7 | the input becomes the typed text |
| VisionLabView.VisionLab.HandleImageUpload | components/VisionLab.tsx:12-21 | a picked file's data URL becomes the selection; no file changes nothing |
| VisionLabView.VisionLab.ClearImage | components/VisionLab.tsx:127 | the selection is dropped |
| VisionLabView.VisionLab.HandleSend | components/VisionLab.tsx:23-46 | with neither text nor image, or a pending request, the send is a no-op; otherwise one user turn is appended, the input cleared, loading set, and the request carries the extracted payload and media type |
| VisionLabView.VisionLab.PostUserTurn | components/VisionLab.tsx:26-35 | the user turn, with the image when one is selected, is appended, the input cleared and loading set |
| VisionLabView.VisionLab.ReceiveReply | components/VisionLab.tsx:48-61 | exactly one model turn is appended, loading ends and the selection is dropped, on success and on failure |
| ReasoningLabView.ReplyTurn | components/ReasoningLab.tsx:35-44 | the model turn is marked as thinking exactly when the call succeeded; a failure gives the fixed error text with no thinking flag |
| ReasoningLabView.ReasoningLab.constructor | components/ReasoningLab.tsx:6-8 | no turns, empty input, not loading |
| ReasoningLabView.ReasoningLab.EditInput | components/ReasoningLab.tsx:7 | the input becomes the typed text |
| ReasoningLabView.ReasoningLab.HandleSend | components/ReasoningLab.tsx:19-33 | a blank input or a pending request makes the send a no-op; otherwise one user turn is appended, the input cleared, loading set, and the untrimmed input is the prompt |
| ReasoningLabView.ReasoningLab.ReceiveReply | components/ReasoningLab.tsx:35-47 | exactly one model turn is appended and loading ends, whatever the outcome |

## Left out

- The API calls (`ai.models.generateContent`) are not modelled. Their outcome is a parameter of each `ReceiveReply`. An answer whose `text` is undefined is modelled as the empty text.
- Video generation is left out: services/geminiService.ts:167-211 and components/VideoLab.tsx. That code polls an external job with timers, fetches blobs and selects API keys.
- components/Sidebar.tsx and App.tsx are left out. They are rendering and tab routing.
- JSON serialisation is not modelled. A localStorage entry is modelled as its parsed value. An entry that parses to the wrong shape reads as unparseable.
- Failures of the two engines are reduced to one availability flag per engine for the whole session. Transaction errors and IndexedDB version upgrades are not modelled.
- Asynchrony is left out. Interleaved sends, overlapping IndexedDB transactions, and the race between `clearAllData`'s clear and the save effect that follows a reset all run in sequence in the model. The model admits one reply per pending send (`ReceiveReply` requires `isLoading`).
- Stale closures are not modelled. `handleSend` reads the state of the render it was created in; the model uses the current fields.
- StorageService.Storage.LoadDocuments: the key order is modelled as code-point comparison of ids. IndexedDB compares UTF-16 code units, and the two agree on ids made of digits.
- GeminiService.ReasoningRequest: the string `contents` is modelled as one text part.
- GeminiService.ChatWithTrainedModel: the temperature 0.3 is modelled as an exact real, not a float.
- FileReader, `window.confirm` and `Date.now()` are parameters: a data URL, a boolean and a natural number.
- Rendering, scrolling and clearing the hidden file input are left out.
- TrainingLabView.TrainingLab.HandleFileUpload requires the data URL to contain a comma. The file reader always writes one. Without it the source would store an undefined payload, which the model has no value for.
- The vision view takes the image payload as `split(',')[1]`, the SECOND comma-separated segment. The model follows that code. It does not follow the reading "everything after the first comma", and the two differ only for a data URL with a second comma.
