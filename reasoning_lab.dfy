/** The reasoning view (components/ReasoningLab.tsx): a chat whose prompts go to the reasoning
    model with a thinking budget; its answers are marked as thinking turns. A send is cut at its
    `await` as in the training view. */
module ReasoningLabView {
  import opened Wrappers
  import opened Text
  import opened Types
  import opened GeminiService

  const ReasoningError := "Hubo un error en el proceso de razonamiento."

  /** The model turn that closes a send: an answer is marked as thinking, the error turn is a
      plain one. */
  function ReplyTurn(response: ApiResponse, now: nat): (m: Message)
    ensures m.role == Model && m.timestamp == now && m.image == None && m.videoUri == None
    ensures m.thinking == Some(true) <==> response.Responded?
    ensures response.Failed? ==> m == PlainMessage(Model, ReasoningError, now)
    ensures response.Responded? ==> m.content == Settle(response, ReasoningFallback).value
    ensures m.content != ""
  {
    match Settle(response, ReasoningFallback)
    case Resolved(text) => Message(Model, text, None, None, now, Some(true))
    case Rejected => PlainMessage(Model, ReasoningError, now)
  }

  class ReasoningLab {
    var messages: seq<Message>
    var input: string
    var isLoading: bool

    constructor ()
      ensures messages == [] && input == "" && !isLoading
    {
      messages, input, isLoading := [], "", false;
    }

    method EditInput(text: string)
      modifies this`input
      ensures input == text
    {
      input := text;
    }

    /** Up to the API call: a blank input or a pending request makes the send a no-op; otherwise
        the user turn is appended, the input cleared, and the untrimmed input is the prompt. */
    method HandleSend(now: nat) returns (request: Option<Request>)
      modifies this`messages, this`input, this`isLoading
      ensures old(Trim(input) == "" || isLoading) ==>
        request == None && messages == old(messages) && input == old(input) && isLoading == old(isLoading)
      ensures old(Trim(input) != "" && !isLoading) ==>
        && messages == old(messages) + [PlainMessage(User, old(input), now)]
        && input == "" && isLoading
        && request == Some(ReasoningRequest(old(input)))
    {
      if Trim(input) == "" || isLoading {
        return None;
      }
      var userMsg := PlainMessage(User, input, now);
      messages := messages + [userMsg];
      input := "";
      isLoading := true;
      request := Some(ReasoningRequest(userMsg.content));
    }

    /** After the API call settles: exactly one model turn is appended and loading ends. */
    method ReceiveReply(response: ApiResponse, now: nat)
      requires isLoading
      modifies this`messages, this`isLoading
      ensures messages == old(messages) + [ReplyTurn(response, now)]
      ensures !isLoading
    {
      messages := messages + [ReplyTurn(response, now)];
      isLoading := false;
    }
  }
}
