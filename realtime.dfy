/** The realtime connection as the stores see it: an opaque handle that
    carries the handshake query, a `connected` bit, and the handlers
    registered on it. Transport, reconnection and delivery order belong to
    the socket library and are not modelled. */
module Realtime {
  import opened Domain

  class Socket {
    /** The handshake query `{ userId, name }`. */
    const userId: string
    const name: string
    /** False once `disconnect()` has been called. */
    var connected: bool
    /** Whether a `getOnlineUsers` handler is registered. */
    var listensOnlineUsers: bool
    /** One entry per registered `newMessage` handler, in registration order:
        the contact that handler captured when it was registered. */
    var messageListeners: seq<User>

    /** `io(url, { query: { userId, name } })`: a new handle with no handlers. */
    constructor (userId: string, name: string)
      ensures this.userId == userId && this.name == name
      ensures connected && !listensOnlineUsers && messageListeners == []
    {
      this.userId := userId;
      this.name := name;
      connected := true;
      listensOnlineUsers := false;
      messageListeners := [];
    }

    /** `socket.disconnect()`: the handle stays, its handlers stay. */
    method Disconnect()
      modifies this
      ensures !connected
      ensures listensOnlineUsers == old(listensOnlineUsers)
      ensures messageListeners == old(messageListeners)
    {
      connected := false;
    }

    /** `socket.on('getOnlineUsers', ...)`. */
    method OnGetOnlineUsers()
      modifies this
      ensures listensOnlineUsers
      ensures connected == old(connected) && messageListeners == old(messageListeners)
    {
      listensOnlineUsers := true;
    }

    /** `socket.on('newMessage', ...)` with a handler that captured `contact`;
        earlier handlers stay registered. */
    method OnNewMessage(contact: User)
      modifies this
      ensures messageListeners == old(messageListeners) + [contact]
      ensures connected == old(connected) && listensOnlineUsers == old(listensOnlineUsers)
    {
      messageListeners := messageListeners + [contact];
    }

    /** `socket.off('newMessage')`: removes every `newMessage` handler. */
    method OffNewMessage()
      modifies this
      ensures messageListeners == []
      ensures connected == old(connected) && listensOnlineUsers == old(listensOnlineUsers)
    {
      messageListeners := [];
    }
  }
}
