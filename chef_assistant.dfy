/** The chat window of components/ChefAssistant.tsx. The transcript opens with one greeting
    from the model; every accepted send adds the user's trimmed text and then exactly one
    model turn, whatever the chat call does, and the loading flag keeps a second send out
    while a reply is awaited. `handleSend` is modelled in its two halves, the part before the
    `await` (`Submit`) and the part after it (`Receive`), so that a send attempted between
    them can be stated; `Send` is the two in a row. The messages handed to `sendMessage` are
    recorded in `sent`, in order. */
module ChefAssistant {
  import opened Common
  import opened Strings
  import opened Types

  const Greeting: string := "¡Hola! Soy tu Chef Personal con IA. ¿En qué puedo ayudarte hoy? ¿Buscas una receta o necesitas sustituir un ingrediente?"

  /** The model turn added when the reply has no text. */
  const Apology: string := "Lo siento, tuve un problema pensando en eso."

  /** The model turn added when the chat call fails. */
  const ChatFailure: string := "¡Ups! Algo salió mal en mi cocina digital."

  /** The model turn added once `sendMessage` settles with `outcome` (the reply's `text`, which
      may be missing): the reply when it has text, otherwise one of the two fixed lines. */
  function ModelTurn(outcome: Outcome<Option<string>>): (turn: ChatMessage)
    ensures turn.role == Model && turn.text != ""
    ensures outcome.Ok? && outcome.value.Some? && outcome.value.value != "" ==> turn.text == outcome.value.value
    ensures outcome.Ok? && (outcome.value.None? || outcome.value.value == "") ==> turn.text == Apology
    ensures outcome.Failed? ==> turn.text == ChatFailure
  {
    match outcome
    case Ok(text) => ChatMessage(Model, TextOr(text, Apology))
    case Failed => ChatMessage(Model, ChatFailure)
  }

  class Assistant {
    var messages: seq<ChatMessage>
    var input: string
    var isLoading: bool
    /** The messages handed to `sendMessage`, oldest first. */
    var sent: seq<string>

    /** The transcript is the greeting followed by user and model turns in alternation, with
        the user turns exactly the messages sent; it ends with a user turn exactly while a
        reply is awaited, and no turn is empty or carries surrounding blanks from the user. */
    ghost predicate Valid()
      reads this
    {
      && |messages| >= 1 && messages[0] == ChatMessage(Model, Greeting)
      && (forall i :: 1 <= i < |messages| ==> (messages[i].role == User <==> i % 2 == 1))
      && (forall i :: 0 <= i < |messages| ==> messages[i].text != "")
      && (isLoading <==> |messages| % 2 == 0)
      && |sent| == |messages| / 2
      && (forall k :: 0 <= k < |sent| ==> messages[2 * k + 1] == ChatMessage(User, sent[k]))
      && (forall k :: 0 <= k < |sent| ==> Trim(sent[k]) == sent[k])
    }

    /** The greeting alone, an empty input and nothing awaited. */
    constructor ()
      ensures Valid()
      ensures messages == [ChatMessage(Model, Greeting)] && input == "" && !isLoading && sent == []
    {
      messages := [ChatMessage(Model, Greeting)];
      input, isLoading, sent := "", false, [];
    }

    /** The input's `onChange`. */
    method SetInput(text: string)
      modifies this`input
      ensures input == text
    {
      input := text;
    }

    /** `handleSend` up to its `await`: refused, changing nothing, when the input is blank or
        a reply is awaited; otherwise the trimmed input is sent and shown as a user turn, the
        input is cleared and the loading flag is raised. */
    method Submit() returns (accepted: bool)
      requires Valid()
      modifies this
      ensures Valid()
      ensures accepted <==> !IsBlank(old(input)) && !old(isLoading)
      ensures !accepted ==> unchanged(this)
      ensures accepted ==>
        && messages == old(messages) + [ChatMessage(User, Trim(old(input)))]
        && sent == old(sent) + [Trim(old(input))]
        && input == "" && isLoading
    {
      if Trim(input) == "" || isLoading {
        return false;
      }
      var userMsg := Trim(input);
      TrimIdempotent(input);
      input := "";
      messages := messages + [ChatMessage(User, userMsg)];
      sent := sent + [userMsg];
      isLoading := true;
      return true;
    }

    /** `handleSend` after its `await`: the model turn for the outcome is added and the
        loading flag goes down. */
    method Receive(outcome: Outcome<Option<string>>)
      requires Valid() && isLoading
      modifies this`messages, this`isLoading
      ensures Valid()
      ensures messages == old(messages) + [ModelTurn(outcome)] && !isLoading
    {
      messages := messages + [ModelTurn(outcome)];
      isLoading := false;
    }

    /** A whole `handleSend` with no other event while the reply is awaited: an accepted
        send adds exactly two turns, the user's and the model's, and leaves nothing awaited. */
    method Send(outcome: Outcome<Option<string>>) returns (accepted: bool)
      requires Valid()
      modifies this
      ensures Valid()
      ensures accepted <==> !IsBlank(old(input)) && !old(isLoading)
      ensures !accepted ==> unchanged(this)
      ensures accepted ==>
        && messages == old(messages) + [ChatMessage(User, Trim(old(input))), ModelTurn(outcome)]
        && sent == old(sent) + [Trim(old(input))]
        && input == "" && !isLoading
    {
      accepted := Submit();
      if accepted {
        Receive(outcome);
      }
    }
  }

  /** While a reply is awaited, a second send is refused whatever has been typed. */
  method SendWhileAwaitingIsRefused(chat: Assistant, typed: string)
    requires chat.Valid() && chat.isLoading
    modifies chat
    ensures chat.Valid() && chat.input == typed
    ensures chat.messages == old(chat.messages) && chat.sent == old(chat.sent) && chat.isLoading
  {
    chat.SetInput(typed);
    var accepted := chat.Submit();
    assert !accepted;
  }
}
