/** The image analysis view (components/VisionLab.tsx): a chat where a turn may carry one
    picked image, sent to the service as an inline part. The picked image is held as the data URL
    the file reader produced; the view cuts it into the payload and the media type itself. A send
    is cut at its `await` as in the training view. */
module VisionLabView {
  import opened Wrappers
  import opened Text
  import opened Types
  import opened GeminiService

  const DefaultPrompt := "Describe esta imagen en detalle."
  const RequestError := "Error al procesar la solicitud. Verifica tu conexi\U{F3}n."

  /** `selectedImage.split(',')[1]`, taken only for a truthy selection; a missing segment is
      `undefined`, modelled as none. */
  function ImagePayload(selected: Option<string>): (r: Option<string>)
    ensures !IsTruthy(selected) ==> r == None
    ensures IsTruthy(selected) && ',' in selected.value ==> r.Some?
    ensures r.Some? ==> ',' !in r.value
  {
    if IsTruthy(selected) then Segment(selected.value, ',', 1) else None
  }

  /** `selectedImage.split(';')[0].split(':')[1]` for a truthy selection, the default media type
      otherwise. A missing segment is `undefined`, which makes the service fall back to its own
      default parameter. */
  function ImageMime(selected: Option<string>): (r: Option<string>)
    ensures !IsTruthy(selected) ==> r == Some(DefaultImageMime)
    ensures IsTruthy(selected) && ':' in Split(selected.value, ';')[0] ==> r.Some?
    ensures IsTruthy(selected) && r.Some? ==> ':' !in r.value
  {
    if IsTruthy(selected) then Segment(Split(selected.value, ';')[0], ':', 1) else Some(DefaultImageMime)
  }

  /** `userMsg.content || DefaultPrompt`. */
  function PromptFor(content: string): (r: string)
    ensures r != ""
    ensures content != "" ==> r == content
    ensures content == "" ==> r == DefaultPrompt
  {
    if content == "" then DefaultPrompt else content
  }

  /** For a data URL as the file reader writes it, the view recovers exactly the payload and the
      media type. */
  lemma DataUrlDecodes(mimeType: string, payload: string)
    requires ',' !in mimeType && ';' !in mimeType && ':' !in mimeType && ',' !in payload
    ensures ImagePayload(Some(DataUrl(mimeType, payload))) == Some(payload)
    ensures ImageMime(Some(DataUrl(mimeType, payload))) == Some(mimeType)
  {
    var url := DataUrl(mimeType, payload);
    assert url[0] == 'd';
    DataUrlCommaPieces(mimeType, payload);
    DataUrlSemicolonPiece(mimeType, payload);
    DataUrlColonPieces(mimeType);
  }

  /** A picked image with a non-empty payload reaches the service as one inline part carrying
      that payload and media type, followed by the prompt. */
  lemma ImageTurnRequest(mimeType: string, payload: string, content: string)
    requires ',' !in mimeType && ';' !in mimeType && ':' !in mimeType && ',' !in payload
    requires payload != ""
    ensures
      var selected := Some(DataUrl(mimeType, payload));
      VisionRequest(PromptFor(content), ImagePayload(selected), ImageMime(selected)).parts
        == [InlineData(payload, mimeType), TextPart(PromptFor(content))]
  {
    DataUrlDecodes(mimeType, payload);
  }

  /** The text of the model turn that closes a send. */
  function ReplyText(response: ApiResponse): (r: string)
    ensures response.Failed? ==> r == RequestError
    ensures response.Responded? ==> r == Settle(response, VisionFallback).value
    ensures r != ""
  {
    match Settle(response, VisionFallback)
    case Resolved(text) => text
    case Rejected => RequestError
  }

  /** The user turn of a send: the image is attached only when the selection is truthy. */
  function UserTurn(content: string, selected: Option<string>, now: nat): (m: Message)
    ensures m.role == User && m.content == content && m.timestamp == now
    ensures m.image.Some? <==> IsTruthy(selected)
    ensures m.image.Some? ==> m.image == selected
    ensures m.videoUri == None && m.thinking == None
  {
    Message(User, content, if IsTruthy(selected) then selected else None, None, now, None)
  }

  class VisionLab {
    var messages: seq<Message>
    var input: string
    var isLoading: bool
    var selectedImage: Option<string>

    constructor ()
      ensures messages == [] && input == "" && !isLoading && selectedImage == None
    {
      messages, input, isLoading, selectedImage := [], "", false, None;
    }

    method EditInput(text: string)
      modifies this`input
      ensures input == text
    {
      input := text;
    }

    /** `dataUrl` is what the reader produced for the picked file, none when no file was
        picked. */
    method HandleImageUpload(dataUrl: Option<string>)
      modifies this`selectedImage
      ensures dataUrl.Some? ==> selectedImage == dataUrl
      ensures dataUrl.None? ==> selectedImage == old(selectedImage)
    {
      if dataUrl.Some? {
        selectedImage := dataUrl;
      }
    }

    /** The remove button on the preview. */
    method ClearImage()
      modifies this`selectedImage
      ensures selectedImage == None
    {
      selectedImage := None;
    }

    /** Up to the API call: a send needs text or an image and no pending request; it appends the
        user turn, clears the input and returns the request built from the selection. */
    method HandleSend(now: nat) returns (request: Option<Request>)
      modifies this`messages, this`input, this`isLoading
      ensures old((Trim(input) == "" && !IsTruthy(selectedImage)) || isLoading) ==>
        request == None && messages == old(messages) && input == old(input) && isLoading == old(isLoading)
      ensures old((Trim(input) != "" || IsTruthy(selectedImage)) && !isLoading) ==>
        && messages == old(messages) + [UserTurn(old(input), selectedImage, now)]
        && input == "" && isLoading
        && request == Some(VisionRequest(PromptFor(old(input)), ImagePayload(selectedImage), ImageMime(selectedImage)))
      ensures selectedImage == old(selectedImage)
    {
      if (Trim(input) == "" && !IsTruthy(selectedImage)) || isLoading {
        return None;
      }
      var base64Data := ImagePayload(selectedImage);
      var mimeType := ImageMime(selectedImage);
      var sent := GenerateVisionContent(PromptFor(input), base64Data, mimeType);
      PostUserTurn(now);
      request := Some(sent);
    }

    /** The state change of an accepted send: the user turn appended, the input cleared,
        loading set. */
    method PostUserTurn(now: nat)
      modifies this`messages, this`input, this`isLoading
      ensures messages == old(messages) + [UserTurn(old(input), selectedImage, now)]
      ensures input == "" && isLoading
    {
      messages := messages + [UserTurn(input, selectedImage, now)];
      input := "";
      isLoading := true;
    }

    /** After the API call settles: one model turn is appended, loading ends and the selection is
        dropped for the next turn. */
    method ReceiveReply(response: ApiResponse, now: nat)
      requires isLoading
      modifies this`messages, this`isLoading, this`selectedImage
      ensures messages == old(messages) + [PlainMessage(Model, ReplyText(response), now)]
      ensures !isLoading && selectedImage == None
    {
      messages := messages + [PlainMessage(Model, ReplyText(response), now)];
      isLoading := false;
      selectedImage := None;
    }
  }
}
