/** The training chat view (components/TrainingLab.tsx): few-shot examples, uploaded PDF
    documents and a chat whose every request carries both, persisted through the storage service.
    React state becomes the fields of `TrainingLab`; each handler is a method. A send is cut at
    its `await`: `HandleSend` runs up to the API call and returns the request it makes, and
    `ReceiveReply` runs when the call settles. `Date.now()` is the `now` parameter, the browser's
    confirmation dialog the `confirmed` parameter. */
module TrainingLabView {
  import opened Wrappers
  import opened Text
  import opened Seqs
  import opened Types
  import opened GeminiService
  import opened StorageService

  const PdfMime := "application/pdf"
  const ConnectionError := "Error: No pude conectar con el modelo entrenado."

  /** The file picked in the upload dialog. */
  datatype UploadedFile = UploadedFile(name: string, mimeType: string, size: nat)

  /** The example `addExample` appends for draft fields `input`, `output`. */
  function NewExample(now: nat, input: string, output: string): (r: TrainingExample)
    ensures r.id == NatToString(now) && r.id != [] && forall k | 0 <= k < |r.id| :: '0' <= r.id[k] <= '9'
    ensures r.input == Trim(input) && r.output == Trim(output)
    ensures Trim(r.input) == r.input && Trim(r.output) == r.output
  {
    TrimIdempotent(input);
    TrimIdempotent(output);
    TrainingExample(NatToString(now), Trim(input), Trim(output))
  }

  /** The document `handleFileUpload` appends once the reader has produced `dataUrl`:
      its payload is `dataUrl.split(',')[1]`. */
  function NewDocument(file: UploadedFile, dataUrl: string, now: nat): (r: TrainingDocument)
    requires ',' in dataUrl
    ensures r.id == NatToString(now) && r.id != []
    ensures r.name == file.name && r.mimeType == file.mimeType && r.size == file.size
    ensures r.base64 == Segment(dataUrl, ',', 1).value && ',' !in r.base64
  {
    TrainingDocument(NatToString(now), file.name, Split(dataUrl, ',')[1], file.mimeType, file.size)
  }

  /** A PDF read as a data URL is stored with exactly its base64 payload. */
  lemma NewDocumentPayload(file: UploadedFile, payload: string, now: nat)
    requires ',' !in file.mimeType && ',' !in payload
    ensures ',' in DataUrl(file.mimeType, payload)
    ensures NewDocument(file, DataUrl(file.mimeType, payload), now).base64 == payload
  {
    DataUrlCommaPieces(file.mimeType, payload);
    assert DataUrl(file.mimeType, payload) == Join(Split(DataUrl(file.mimeType, payload), ','), ',') by {
      JoinSplit(DataUrl(file.mimeType, payload), ',');
    }
    assert ',' in Join(["data:" + file.mimeType + ";base64", payload], ',');
  }

  /** `examples.filter(ex => ex.id !== id)`. */
  function WithoutExample(exs: seq<TrainingExample>, id: string): (r: seq<TrainingExample>)
    ensures |r| <= |exs|
    ensures forall j | 0 <= j < |r| :: r[j].id != id && r[j] in exs
    ensures forall k | 0 <= k < |exs| && exs[k].id != id :: exs[k] in r
  {
    FilterMembers(exs, (ex: TrainingExample) => ex.id != id);
    Filter(exs, (ex: TrainingExample) => ex.id != id)
  }

  /** `documents.filter(d => d.id !== id)`. */
  function WithoutDocument(ds: seq<TrainingDocument>, id: string): (r: seq<TrainingDocument>)
    ensures |r| <= |ds|
    ensures forall j | 0 <= j < |r| :: r[j].id != id && r[j] in ds
    ensures forall k | 0 <= k < |ds| && ds[k].id != id :: ds[k] in r
  {
    FilterMembers(ds, (d: TrainingDocument) => d.id != id);
    Filter(ds, (d: TrainingDocument) => d.id != id)
  }

  /** Removing an id keeps exactly the other entries, in their original order. */
  lemma RemoveExampleSpec(exs: seq<TrainingExample>, id: string, k: nat)
    requires k < |exs|
    ensures forall j | 0 <= j < |WithoutExample(exs, id)| :: WithoutExample(exs, id)[j].id != id
    ensures exs[k].id != id <==> exs[k] in WithoutExample(exs, id)
    ensures WithoutExample(exs, id) == WithoutExample(exs[..k], id) + WithoutExample(exs[k..], id)
  {
    FilterMembers(exs, (ex: TrainingExample) => ex.id != id);
    assert exs == exs[..k] + exs[k..];
    FilterAppend(exs[..k], exs[k..], (ex: TrainingExample) => ex.id != id);
  }

  lemma RemoveDocumentSpec(ds: seq<TrainingDocument>, id: string, k: nat)
    requires k < |ds|
    ensures forall j | 0 <= j < |WithoutDocument(ds, id)| :: WithoutDocument(ds, id)[j].id != id
    ensures ds[k].id != id <==> ds[k] in WithoutDocument(ds, id)
    ensures WithoutDocument(ds, id) == WithoutDocument(ds[..k], id) + WithoutDocument(ds[k..], id)
  {
    FilterMembers(ds, (d: TrainingDocument) => d.id != id);
    assert ds == ds[..k] + ds[k..];
    FilterAppend(ds[..k], ds[k..], (d: TrainingDocument) => d.id != id);
  }

  /** The text of the model turn that closes a send. */
  function ReplyText(response: ApiResponse): (r: string)
    ensures response.Failed? ==> r == ConnectionError
    ensures response.Responded? ==> r == Settle(response, TrainedFallback).value
    ensures r != ""
  {
    match Settle(response, TrainedFallback)
    case Resolved(text) => text
    case Rejected => ConnectionError
  }

  class TrainingLab {
    var examples: seq<TrainingExample>
    var documents: seq<TrainingDocument>
    var messages: seq<Message>
    var newInput: string
    var newOutput: string
    var input: string
    var isLoading: bool
    var isInitialized: bool
    const store: Storage

    /** Once the initial load is done, the store holds what the view shows: each save effect has
        run after the latest change of its list. */
    ghost predicate Synced()
      reads this, store
    {
      isInitialized ==>
        && (store.localAvailable ==> ExamplesIn(store.local) == examples && ChatIn(store.local) == messages)
        && (store.dbAvailable ==> store.docs == Keyed(documents))
    }

    ghost predicate Valid()
      reads this, store
    {
      store.Valid() && Synced()
    }

    constructor (store: Storage)
      requires store.Valid()
      ensures Valid() && this.store == store
      ensures examples == [] && documents == [] && messages == []
      ensures newInput == "" && newOutput == "" && input == ""
      ensures !isLoading && !isInitialized
    {
      examples, documents, messages := [], [], [];
      newInput, newOutput, input := "", "", "";
      isLoading, isInitialized := false, false;
      this.store := store;
    }

    // --- The save effects: each fires after its list changes, and does nothing before the
    // --- initial load has completed.

    method PersistExamples()
      requires store.Valid()
      modifies store`local
      ensures store.Valid()
      ensures store.local == if isInitialized && store.localAvailable
        then old(store.local)[ExamplesKey := ExampleList(examples)] else old(store.local)
    {
      if isInitialized {
        store.SaveExamples(examples);
      }
    }

    method PersistDocuments()
      requires store.Valid()
      modifies store`docs
      ensures store.Valid()
      ensures store.docs == if isInitialized && store.dbAvailable then Keyed(documents) else old(store.docs)
    {
      if isInitialized {
        store.SaveDocuments(documents);
      }
    }

    method PersistMessages()
      requires store.Valid()
      modifies store`local
      ensures store.Valid()
      ensures store.local == if isInitialized && store.localAvailable
        then old(store.local)[ChatKey := ChatLog(messages)] else old(store.local)
    {
      if isInitialized {
        store.SaveChatHistory(messages);
      }
    }

    /** The mount effect: load the three collections, then mark the view initialized, which makes
        the save effects fire once with what was loaded. */
    method Initialize()
      requires Valid() && !isInitialized
      modifies this`examples, this`messages, this`documents, this`isInitialized, store`local, store`docs
      ensures Valid() && isInitialized
      ensures examples == old(store.ExamplesView()) && messages == old(store.ChatView())
      ensures store.dbAvailable ==> ListsStore(documents, store.docs)
      ensures !store.dbAvailable ==> documents == []
      ensures store.docs == old(store.docs)
      ensures store.ExamplesView() == examples && store.ChatView() == messages
    {
      var savedExamples := store.LoadExamples();
      var savedChat := store.LoadChatHistory();
      var savedDocs := store.LoadDocuments();
      examples := savedExamples;
      messages := savedChat;
      documents := savedDocs;
      isInitialized := true;
      PersistExamples();
      KeysIsolated(store.local, examples, messages);
      PersistDocuments();
      if store.dbAvailable {
        ResaveListed(documents, old(store.docs));
      }
      PersistMessages();
      KeysIsolated(old(store.local)[ExamplesKey := ExampleList(examples)], examples, messages);
    }

    method EditNewInput(text: string)
      modifies this`newInput
      ensures newInput == text
    {
      newInput := text;
    }

    method EditNewOutput(text: string)
      modifies this`newOutput
      ensures newOutput == text
    {
      newOutput := text;
    }

    method EditInput(text: string)
      modifies this`input
      ensures input == text
    {
      input := text;
    }

    method AddExample(now: nat)
      requires Valid()
      modifies this`examples, this`newInput, this`newOutput, store`local
      ensures Valid()
      ensures !old(isInitialized) ==> store.local == old(store.local)
      ensures old(Trim(newInput) == "" || Trim(newOutput) == "") ==>
        examples == old(examples) && newInput == old(newInput) && newOutput == old(newOutput)
        && store.local == old(store.local)
      ensures old(Trim(newInput) != "" && Trim(newOutput) != "") ==>
        examples == old(examples) + [NewExample(now, old(newInput), old(newOutput))]
        && newInput == "" && newOutput == ""
    {
      if Trim(newInput) == "" || Trim(newOutput) == "" {
        return;
      }
      var example := NewExample(now, newInput, newOutput);
      PostExample(example);
    }

    /** The state change of an accepted `addExample`: the example appended and saved, both drafts
        cleared. */
    method PostExample(example: TrainingExample)
      requires Valid()
      modifies this`examples, this`newInput, this`newOutput, store`local
      ensures Valid()
      ensures !old(isInitialized) ==> store.local == old(store.local)
      ensures examples == old(examples) + [example] && newInput == "" && newOutput == ""
    {
      examples := examples + [example];
      newInput := "";
      newOutput := "";
      PersistExamples();
      KeysIsolated(old(store.local), examples, messages);
    }

    method RemoveExample(id: string)
      requires Valid()
      modifies this`examples, store`local
      ensures Valid()
      ensures !old(isInitialized) ==> store.local == old(store.local)
      ensures examples == WithoutExample(old(examples), id)
    {
      examples := WithoutExample(examples, id);
      PersistExamples();
      KeysIsolated(old(store.local), examples, messages);
    }

    /** `file` is the picked file (none when the dialog was dismissed), `dataUrl` what the reader
        produced for it; `alerted` reports the rejection of a non-PDF file. */
    method HandleFileUpload(file: Option<UploadedFile>, dataUrl: string, now: nat) returns (alerted: bool)
      requires Valid()
      requires file.Some? && file.value.mimeType == PdfMime ==> ',' in dataUrl
      modifies this`documents, store`docs
      ensures Valid()
      ensures !old(isInitialized) ==> store.docs == old(store.docs)
      ensures alerted <==> file.Some? && file.value.mimeType != PdfMime
      ensures file.None? || alerted ==> documents == old(documents) && store.docs == old(store.docs)
      ensures file.Some? && !alerted ==> documents == old(documents) + [NewDocument(file.value, dataUrl, now)]
    {
      alerted := false;
      if file.None? {
        return;
      }
      if file.value.mimeType != PdfMime {
        alerted := true;
        return;
      }
      var newDoc := NewDocument(file.value, dataUrl, now);
      documents := documents + [newDoc];
      PersistDocuments();
    }

    method RemoveDocument(id: string)
      requires Valid()
      modifies this`documents, store`docs
      ensures Valid()
      ensures !old(isInitialized) ==> store.docs == old(store.docs)
      ensures documents == WithoutDocument(old(documents), id)
    {
      documents := WithoutDocument(documents, id);
      PersistDocuments();
    }

    /** Up to the API call: a blank input or a pending request makes the send a no-op; otherwise
        the user turn is appended, the input cleared, the view marked loading, and the request is
        assembled from the history as it stood before the new turn. */
    method HandleSend(now: nat) returns (request: Option<Request>)
      requires Valid()
      modifies this`messages, this`input, this`isLoading, store`local
      ensures Valid()
      ensures !old(isInitialized) ==> store.local == old(store.local)
      ensures old(Trim(input) == "" || isLoading) ==>
        request == None && messages == old(messages) && input == old(input)
        && isLoading == old(isLoading) && store.local == old(store.local)
      ensures old(Trim(input) != "" && !isLoading) ==>
        && messages == old(messages) + [PlainMessage(User, old(input), now)]
        && input == "" && isLoading
        && request == Some(TrainedChatRequest(old(input), old(messages), examples, documents))
    {
      if Trim(input) == "" || isLoading {
        return None;
      }
      var sent := ChatWithTrainedModel(input, messages, examples, documents);
      PostUserTurn(now);
      request := Some(sent);
    }

    /** The state change of an accepted send: the user turn appended and saved, the input
        cleared, loading set. */
    method PostUserTurn(now: nat)
      requires Valid()
      modifies this`messages, this`input, this`isLoading, store`local
      ensures Valid()
      ensures !old(isInitialized) ==> store.local == old(store.local)
      ensures messages == old(messages) + [PlainMessage(User, old(input), now)]
      ensures input == "" && isLoading
    {
      messages := messages + [PlainMessage(User, input, now)];
      input := "";
      isLoading := true;
      PersistMessages();
      KeysIsolated(old(store.local), examples, messages);
    }

    /** After the API call settles: exactly one model turn, the answer or the error text, is
        appended to the conversation as it is now, and loading ends. */
    method ReceiveReply(response: ApiResponse, now: nat)
      requires Valid() && isLoading
      modifies this`messages, this`isLoading, store`local
      ensures Valid() && !isLoading
      ensures !old(isInitialized) ==> store.local == old(store.local)
      ensures messages == old(messages) + [PlainMessage(Model, ReplyText(response), now)]
    {
      messages := messages + [PlainMessage(Model, ReplyText(response), now)];
      isLoading := false;
      PersistMessages();
      KeysIsolated(old(store.local), examples, messages);
    }

    /** With confirmation, empty all three lists and clear the store; the save effects then write
        the empty lists. Without confirmation nothing changes. */
    method HandleReset(confirmed: bool)
      requires Valid()
      modifies this`examples, this`documents, this`messages, store`local, store`docs
      ensures Valid()
      ensures !confirmed ==>
        examples == old(examples) && documents == old(documents) && messages == old(messages)
        && store.local == old(store.local) && store.docs == old(store.docs)
      ensures confirmed ==> examples == [] && documents == [] && messages == []
      ensures confirmed ==> store.ExamplesView() == [] && store.ChatView() == []
      ensures confirmed && store.dbAvailable && (store.localAvailable || isInitialized) ==> store.docs == map[]
      ensures confirmed && !isInitialized ==>
        && store.local == (if store.localAvailable then old(store.local) - {ExamplesKey, ChatKey} else old(store.local))
        && store.docs == (if store.localAvailable && store.dbAvailable then map[] else old(store.docs))
    {
      if !confirmed {
        return;
      }
      examples := [];
      documents := [];
      messages := [];
      var _ := store.ClearAllData();
      ClearedLoadsEmpty(old(store.local));
      PersistExamples();
      PersistDocuments();
      PersistMessages();
      KeysIsolated(store.local, examples, messages);
    }
  }
}
