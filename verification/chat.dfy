/**
 * The room chat panel: an append-only list of messages fed by `chat_message` frames and
 * by the user's own messages, which are also sent to the room.
 */
module Chat {
  import opened Wrappers
  import opened Text
  import SocketService

  /** The message object `handleSendMessage` builds; an `undefined` prop leaves its key out. */
  function ChatMessage(id: string, participantId: Option<Json>, name: Option<Json>, text: string,
                       timestamp: string, isAdmin: Option<Json>): (m: Json)
    ensures Field(m, "id") == Some(JStr(id)) && Field(m, "text") == Some(JStr(text))
    ensures Field(m, "senderId") == participantId && Field(m, "senderName") == name
    ensures Field(m, "isAdmin") == isAdmin && Field(m, "timestamp") == Some(JStr(timestamp))
  {
    var base := map["id" := JStr(id), "text" := JStr(text), "timestamp" := JStr(timestamp)];
    JObj(Put(Put(Put(base, "senderId", participantId), "senderName", name), "isAdmin", isAdmin))
  }

  /** The panel of one room, with its props. */
  class ChatPanel {
    /** The `messages` state: each entry is a payload as received, `None` for `undefined`. */
    var messages: seq<Option<Json>>
    /** The `newMessage` draft. */
    var newMessage: string
    const participantId: Option<Json>
    const name: Option<Json>
    const isAdmin: Option<Json>
    /** The shared `socketService`. */
    const socket: SocketService.WebSocketService
    /** The identity of this panel's `handleChatMessage` callback. */
    const handler: SocketService.CallbackId

    constructor (participantId: Option<Json>, name: Option<Json>, isAdmin: Option<Json>,
                 socket: SocketService.WebSocketService, handler: SocketService.CallbackId)
      ensures messages == [] && newMessage == ""
      ensures this.participantId == participantId && this.name == name && this.isAdmin == isAdmin
      ensures this.socket == socket && this.handler == handler
    {
      messages, newMessage := [], "";
      this.participantId, this.name, this.isAdmin := participantId, name, isAdmin;
      this.socket, this.handler := socket, handler;
    }

    /** The mount effect: listen for `chat_message`. */
    method Mount()
      modifies socket`listeners
      ensures socket.listeners == SocketService.Register(old(socket.listeners), "chat_message", handler)
      ensures handler in SocketService.ListenersOf(socket.listeners, "chat_message")
    {
      socket.On("chat_message", handler);
    }

    /** The effect's cleanup on unmount: stop listening. */
    method Unmount()
      modifies socket`listeners
      ensures socket.listeners == SocketService.Unregister(old(socket.listeners), "chat_message", handler)
      ensures handler !in SocketService.ListenersOf(socket.listeners, "chat_message")
    {
      socket.Off("chat_message", handler);
    }

    /** `handleChatMessage(data)`: the payload goes to the end of the list. */
    method HandleChatMessage(data: Option<Json>)
      modifies this`messages
      ensures |messages| == |old(messages)| + 1 && messages[..|old(messages)|] == old(messages)
      ensures messages[|old(messages)|] == data
    {
      messages := messages + [data];
    }

    /**
     * `handleSendMessage`: a draft that is not blank is sent as a `chat_message` frame,
     * appended locally and cleared. `id` and `timestamp` are the generated id and the
     * locale time; `isOpen` is the socket's readyState.
     */
    method HandleSendMessage(id: string, timestamp: string, isOpen: bool)
      modifies this`messages, this`newMessage, socket`transmitted
      ensures IsBlank(old(newMessage)) ==>
                messages == old(messages) && newMessage == old(newMessage) && socket.transmitted == old(socket.transmitted)
      ensures !IsBlank(old(newMessage)) ==>
                var m := ChatMessage(id, participantId, name, old(newMessage), timestamp, isAdmin);
                messages == old(messages) + [Some(m)] && newMessage == "" &&
                socket.transmitted == SocketService.AfterSend(old(socket.transmitted), socket.socket.Some? && isOpen,
                                                              "chat_message", Some(m))
    {
      TrimEmptyIffBlank(newMessage);
      if Trim(newMessage) != "" {
        var m := ChatMessage(id, participantId, name, newMessage, timestamp, isAdmin);
        socket.Send("chat_message", Some(m), isOpen);
        messages := messages + [Some(m)];
        newMessage := "";
      }
    }
  }
}
