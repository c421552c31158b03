/** The chat-list logic of App.tsx: the list of chats, the active chat,
    the input box, the picked image and the busy and ready flags of the
    screen. Sending a message updates the active chat at once and again
    when the reply arrives; both updates are pure maps over the list keyed
    by chat id. The model call, the clock and storage are parameters. */
module ChatApp {
  import opened Wrappers
  import opened JsStrings

  const NewChatTitle := "New Chat"
  /** How many characters of the first message become a chat's title. */
  const TitleLength := 30

  datatype Sender = User | Ai
  datatype Message = Message(id: string, text: string, sender: Sender, image: Option<string>)
  datatype Chat = Chat(id: string, title: string, messages: seq<Message>)

  /** JavaScript truthiness of a string that may be null: present and
      non-empty. */
  predicate Truthy(s: Option<string>) {
    s.Some? && s.value != []
  }

  /** `chats.map(chat => chat.id === active ? update(chat) : chat)`. */
  function UpdateChat(chats: seq<Chat>, active: string, update: Chat -> Chat): seq<Chat> {
    if chats == [] then []
    else [if chats[0].id == active then update(chats[0]) else chats[0]] + UpdateChat(chats[1..], active, update)
  }

  /** The map keeps the list's length and order, applies the update to
      every chat with the active id and leaves every other chat as it was. */
  lemma {:induction false} UpdateChatPointwise(chats: seq<Chat>, active: string, update: Chat -> Chat)
    ensures |UpdateChat(chats, active, update)| == |chats|
    ensures forall i :: 0 <= i < |chats| ==>
      UpdateChat(chats, active, update)[i] == (if chats[i].id == active then update(chats[i]) else chats[i])
  {
    if chats != [] {
      UpdateChatPointwise(chats[1..], active, update);
      var r := UpdateChat(chats, active, update);
      forall i | 0 < i < |chats|
        ensures r[i] == (if chats[i].id == active then update(chats[i]) else chats[i])
      {
        assert r[i] == UpdateChat(chats[1..], active, update)[i - 1];
        assert chats[1..][i - 1] == chats[i];
      }
    }
  }

  /** The active chat after the user's message: the message is appended,
      and the title becomes the input's first 30 characters when the chat
      had no messages yet. */
  function AddUserMessage(msg: Message, input: string): Chat -> Chat {
    (chat: Chat) => chat.(messages := chat.messages + [msg],
                  title := if |chat.messages| == 0 then Prefix(input, TitleLength) else chat.title)
  }

  /** The active chat after the reply: the message is appended. */
  function AddAiMessage(msg: Message): Chat -> Chat {
    (chat: Chat) => chat.(messages := chat.messages + [msg])
  }

  /** The list after `sendMessage` appends the user's message. */
  function WithUserMessage(chats: seq<Chat>, active: string, msg: Message, input: string): seq<Chat> {
    UpdateChat(chats, active, AddUserMessage(msg, input))
  }

  /** The list after the reply is appended. */
  function WithAiMessage(chats: seq<Chat>, active: string, msg: Message): seq<Chat> {
    UpdateChat(chats, active, AddAiMessage(msg))
  }

  /** Only the active chat changes: it gains exactly the user's message at
      the end, keeps its id, and takes the input's first 30 characters as
      its title exactly when it had no messages. */
  lemma UserMessageLands(chats: seq<Chat>, active: string, msg: Message, input: string)
    ensures var r := WithUserMessage(chats, active, msg, input);
      && |r| == |chats|
      && (forall i :: 0 <= i < |chats| && chats[i].id != active ==> r[i] == chats[i])
      && (forall i :: 0 <= i < |chats| && chats[i].id == active ==>
            r[i].id == active && r[i].messages == chats[i].messages + [msg])
      && (forall i :: 0 <= i < |chats| && chats[i].id == active && chats[i].messages == [] ==>
            r[i].title == Prefix(input, TitleLength))
      && (forall i :: 0 <= i < |chats| && chats[i].id == active && chats[i].messages != [] ==>
            r[i].title == chats[i].title)
  {
    UpdateChatPointwise(chats, active, AddUserMessage(msg, input));
  }

  /** The reply lands in the active chat only, at the end, and no title
      changes. */
  lemma AiMessageLands(chats: seq<Chat>, active: string, msg: Message)
    ensures var r := WithAiMessage(chats, active, msg);
      && |r| == |chats|
      && (forall i :: 0 <= i < |chats| && chats[i].id != active ==> r[i] == chats[i])
      && (forall i :: 0 <= i < |chats| && chats[i].id == active ==>
            r[i] == chats[i].(messages := chats[i].messages + [msg]))
  {
    UpdateChatPointwise(chats, active, AddAiMessage(msg));
  }

  /** A full exchange: the active chat ends with the user's message and
      then the reply, every other chat is untouched. */
  lemma ExchangeAppendsBoth(chats: seq<Chat>, active: string, user: Message, input: string, ai: Message)
    ensures var r := WithAiMessage(WithUserMessage(chats, active, user, input), active, ai);
      && |r| == |chats|
      && (forall i :: 0 <= i < |chats| && chats[i].id != active ==> r[i] == chats[i])
      && (forall i :: 0 <= i < |chats| && chats[i].id == active ==>
            r[i].id == active && r[i].messages == chats[i].messages + [user, ai])
  {
    var mid := WithUserMessage(chats, active, user, input);
    UserMessageLands(chats, active, user, input);
    AiMessageLands(mid, active, ai);
  }

  /** How many messages the chats hold together. */
  function TotalMessages(chats: seq<Chat>): nat {
    if chats == [] then 0 else |chats[0].messages| + TotalMessages(chats[1..])
  }

  /** How many chats carry the id. */
  function CountId(chats: seq<Chat>, id: string): nat {
    if chats == [] then 0 else (if chats[0].id == id then 1 else 0) + CountId(chats[1..], id)
  }

  /** Sending adds one message per chat with the active id, so exactly one
      message overall when ids are unique. */
  lemma {:induction false} UserMessageCount(chats: seq<Chat>, active: string, msg: Message, input: string)
    ensures TotalMessages(WithUserMessage(chats, active, msg, input)) == TotalMessages(chats) + CountId(chats, active)
  {
    if chats != [] {
      UserMessageCount(chats[1..], active, msg, input);
    }
  }

  /** A new chat goes first, empty and titled `New Chat`. */
  function NewChat(chats: seq<Chat>, id: string): seq<Chat> {
    [Chat(id, NewChatTitle, [])] + chats
  }

  /** The guard of `sendMessage`: something to send (text that is not
      blank after trimming, or an image), an active chat, a ready model. */
  predicate CanSend(input: string, image: Option<string>, active: Option<string>, modelReady: bool) {
    (Trim(input) != [] || Truthy(image)) && Truthy(active) && modelReady
  }

  /** Blank text with no image, no active chat and an unready model each
      stop a send. */
  lemma CanSendCases(input: string, image: Option<string>, active: Option<string>, modelReady: bool)
    ensures CanSend(input, image, active, modelReady) <==>
      (!Blank(input) || Truthy(image)) && active.Some? && active.value != [] && modelReady
  {
    TrimEmptyIffBlank(input);
  }

  /** What a pending `sendMessage` closed over: the list it wrote, the
      active chat, and the text and image it sent. */
  datatype Turn = Turn(chats: seq<Chat>, active: string, input: string, image: Option<string>)

  class ChatScreen {
    var chats: seq<Chat>
    var activeChat: Option<string>
    var input: string
    var selectedImage: Option<string>
    var loading: bool
    var modelReady: bool

    constructor()
      ensures chats == [] && activeChat == None && input == [] && selectedImage == None
      ensures !loading && !modelReady
    {
      chats := [];
      activeChat := None;
      input := [];
      selectedImage := None;
      loading := false;
      modelReady := false;
    }

    /** `initModel`: the model becomes ready when initialising succeeds;
        a failure is only logged. */
    method InitModel(init: Outcome)
      modifies this
      ensures modelReady == (old(modelReady) || init.Pass?)
      ensures chats == old(chats) && activeChat == old(activeChat) && input == old(input)
      ensures selectedImage == old(selectedImage) && loading == old(loading)
    {
      if init.Pass? {
        modelReady := true;
      }
    }

    /** `loadChats`: `stored` is the parsed list, or `None` when nothing
        (or an empty string) was stored. A non-empty list makes its first
        chat active. */
    method LoadChats(stored: Option<seq<Chat>>)
      modifies this
      ensures stored.None? ==> chats == old(chats) && activeChat == old(activeChat)
      ensures stored.Some? ==> chats == stored.value
      ensures stored.Some? && stored.value != [] ==> activeChat == Some(stored.value[0].id)
      ensures stored.Some? && stored.value == [] ==> activeChat == old(activeChat)
      ensures input == old(input) && selectedImage == old(selectedImage)
      ensures loading == old(loading) && modelReady == old(modelReady)
    {
      if stored.Some? {
        chats := stored.value;
        if |stored.value| > 0 {
          activeChat := Some(stored.value[0].id);
        }
      }
    }

    /** `createNewChat`: `id` is the clock reading that names the chat. */
    method CreateNewChat(id: string)
      modifies this
      ensures chats == NewChat(old(chats), id) && activeChat == Some(id)
      ensures input == old(input) && selectedImage == old(selectedImage)
      ensures loading == old(loading) && modelReady == old(modelReady)
    {
      chats := NewChat(chats, id);
      activeChat := Some(id);
    }

    /** Typing into the input box. */
    method SetInput(text: string)
      modifies this
      ensures input == text
      ensures chats == old(chats) && activeChat == old(activeChat) && selectedImage == old(selectedImage)
      ensures loading == old(loading) && modelReady == old(modelReady)
    {
      input := text;
    }

    /** `sendMessage` up to the model call: when the guard passes, the
        user's message goes into the active chat, the input and image are
        cleared and the screen is busy. `userId` is the clock reading that
        names the message. */
    method SendMessage(userId: string) returns (turn: Option<Turn>)
      modifies this
      ensures !CanSend(old(input), old(selectedImage), old(activeChat), old(modelReady)) ==>
        turn == None && unchanged(this)
      ensures CanSend(old(input), old(selectedImage), old(activeChat), old(modelReady)) ==>
        var image := if Truthy(old(selectedImage)) then old(selectedImage) else None;
        var sent := Message(userId, old(input), User, image);
        && chats == WithUserMessage(old(chats), old(activeChat).value, sent, old(input))
        && turn == Some(Turn(chats, old(activeChat).value, old(input), old(selectedImage)))
        && input == [] && selectedImage == None && loading
        && activeChat == old(activeChat) && modelReady == old(modelReady)
    {
      if !CanSend(input, selectedImage, activeChat, modelReady) {
        return None;
      }
      var image := if Truthy(selectedImage) then selectedImage else None;
      var sent := Message(userId, input, User, image);
      chats := WithUserMessage(chats, activeChat.value, sent, input);
      turn := Some(Turn(chats, activeChat.value, input, selectedImage));
      input := [];
      selectedImage := None;
      loading := true;
    }

    /** The rest of `sendMessage` once the model call settles: a reply is
        appended to the list the send wrote, not to the current one; a
        failure is only logged. Either way the screen is no longer busy.
        `aiId` is the clock reading that names the reply. */
    method ReceiveReply(turn: Turn, aiId: string, generation: Result<string>)
      modifies this
      ensures !loading
      ensures generation.Success? ==>
        chats == WithAiMessage(turn.chats, turn.active, Message(aiId, generation.value, Ai, None))
      ensures generation.Failure? ==> chats == old(chats)
      ensures activeChat == old(activeChat) && input == old(input) && selectedImage == old(selectedImage)
      ensures modelReady == old(modelReady)
    {
      if generation.Success? {
        chats := WithAiMessage(turn.chats, turn.active, Message(aiId, generation.value, Ai, None));
      }
      loading := false;
    }
  }

  /** A chat created while a reply is awaited is lost when the reply
      lands, because the reply is written over the list the send saw. */
  method ChatCreatedWhileWaitingIsLost(first: string, second: string, text: string, reply: string)
    returns (chats: seq<Chat>)
    requires first != [] && Trim(text) != []
    ensures |chats| == 1 && chats[0].id == first
    ensures chats[0].messages == [Message("u", text, User, None), Message("a", reply, Ai, None)]
  {
    var screen := new ChatScreen();
    screen.InitModel(Pass);
    screen.CreateNewChat(first);
    screen.SetInput(text);
    var start := [Chat(first, NewChatTitle, [])];
    assert screen.chats == start && CanSend(text, None, Some(first), true);
    var turn := screen.SendMessage("u");
    assert turn.value.chats == WithUserMessage(start, first, Message("u", text, User, None), text);
    assert turn.value.active == first;
    screen.CreateNewChat(second);
    screen.ReceiveReply(turn.value, "a", Success(reply));
    chats := screen.chats;
    ExchangeAppendsBoth(start, first, Message("u", text, User, None), text, Message("a", reply, Ai, None));
  }
}
