/** The conversation store: the contact list, the selected contact, the
    message history shown for it, and two loading flags. Backend calls are
    input `Response`s; realtime `newMessage` events are delivered by
    `DeliverNewMessage`. As in the session store, an operation that raises a
    flag before awaiting is split at the await into `Start…` and `Finish…`. */
module Chat {
  import opened Domain
  import opened Realtime
  import opened Auth

  /** What one `newMessage` event `m` appends when it reaches the handlers
      that captured `listeners`, run in registration order: a copy of `m` for
      each handler whose captured contact sent it, and nothing else. */
  function AppendedBy(listeners: seq<User>, m: Message): (r: seq<Message>)
    ensures |r| <= |listeners|
    ensures forall k :: 0 <= k < |r| ==> r[k] == m
  {
    if listeners == [] then []
    else
      var init := listeners[..|listeners| - 1];
      var last := listeners[|listeners| - 1];
      AppendedBy(init, m) + (if last.id == m.senderId then [m] else [])
  }

  /** An event appends nothing exactly when no handler's captured contact
      sent it. */
  lemma {:induction false} AppendedNothingIff(listeners: seq<User>, m: Message)
    ensures AppendedBy(listeners, m) == [] <==> forall j :: 0 <= j < |listeners| ==> listeners[j].id != m.senderId
  {
    if listeners != [] {
      var init := listeners[..|listeners| - 1];
      AppendedNothingIff(init, m);
      assert forall j :: 0 <= j < |init| ==> init[j] == listeners[j];
    }
  }

  /** One handler appends `m` exactly when its captured contact sent it. */
  lemma AppendedBySingle(c: User, m: Message)
    ensures AppendedBy([c], m) == if c.id == m.senderId then [m] else []
  {
  }

  /** Handlers registered in two batches append what the first batch
      appends, then what the second appends. */
  lemma {:induction false} AppendedByConcat(a: seq<User>, b: seq<User>, m: Message)
    ensures AppendedBy(a + b, m) == AppendedBy(a, m) + AppendedBy(b, m)
    decreases |b|
  {
    if b == [] {
      assert a + b == a;
    } else {
      var init := b[..|b| - 1];
      assert (a + b)[..|a + b| - 1] == a + init;
      assert (a + b)[|a + b| - 1] == b[|b| - 1];
      AppendedByConcat(a, init, m);
    }
  }

  /** The request path's contact id: `selectedUser?._id` in a template
      literal, so a missing selection is sent as the text "undefined" and
      cannot be told apart from a contact whose id is that text. */
  function RecipientId(selected: Option<User>): (id: string)
    ensures selected.Some? ==> id == selected.value.id
    ensures id == "undefined" <==> selected.None? || selected.value.id == "undefined"
  {
    if selected.Some? then selected.value.id else "undefined"
  }

  class ChatStore {
    var messages: seq<Message>
    var users: seq<User>
    var selectedUser: Option<User>
    var isUsersLoading: bool
    var isMessagesLoading: bool

    /** The store as it is created: empty lists, no selection, nothing
        loading. */
    constructor ()
      ensures messages == [] && users == [] && selectedUser == None
      ensures !isUsersLoading && !isMessagesLoading
    {
      messages := [];
      users := [];
      selectedUser := None;
      isUsersLoading := false;
      isMessagesLoading := false;
    }

    /** What `getUsers` does once its request settles: the flag is down, a
        success replaces the contact list with the response, a failure keeps
        it; nothing else changes. */
    twostate predicate UsersFetched(res: Response<seq<User>>)
      reads this
    {
      && !isUsersLoading
      && users == (if res.Ok? then res.payload else old(users))
      && messages == old(messages) && selectedUser == old(selectedUser)
      && isMessagesLoading == old(isMessagesLoading)
    }

    /** `getUsers` up to its await: only `isUsersLoading` is raised. */
    method StartGetUsers()
      modifies this
      ensures isUsersLoading
      ensures messages == old(messages) && users == old(users) && selectedUser == old(selectedUser)
      ensures isMessagesLoading == old(isMessagesLoading)
    {
      isUsersLoading := true;
    }

    /** `getUsers` after its await; a failure is re-thrown. */
    method FinishGetUsers(res: Response<seq<User>>) returns (st: Settled)
      modifies this
      ensures st == Propagate(res) && UsersFetched(res)
    {
      if res.Ok? {
        users := res.payload;
      }
      st := Propagate(res);
      isUsersLoading := false;
    }

    /** `getUsers`. */
    method GetUsers(res: Response<seq<User>>) returns (st: Settled)
      modifies this
      ensures st == Propagate(res) && UsersFetched(res)
    {
      StartGetUsers();
      st := FinishGetUsers(res);
    }

    /** What `getMessages` does once its request settles: the flag is down, a
        success replaces the whole history with the response (whatever was
        shown before, for any contact, is discarded), a failure keeps it;
        nothing else changes. */
    twostate predicate HistoryFetched(res: Response<seq<Message>>)
      reads this
    {
      && !isMessagesLoading
      && messages == (if res.Ok? then res.payload else old(messages))
      && users == old(users) && selectedUser == old(selectedUser)
      && isUsersLoading == old(isUsersLoading)
    }

    /** `getMessages(userId)` up to its await: the history of `userId` is
        requested and only `isMessagesLoading` is raised. */
    method StartGetMessages(userId: string) returns (requested: string)
      modifies this
      ensures requested == userId
      ensures isMessagesLoading
      ensures messages == old(messages) && users == old(users) && selectedUser == old(selectedUser)
      ensures isUsersLoading == old(isUsersLoading)
    {
      requested := userId;
      isMessagesLoading := true;
    }

    /** `getMessages` after its await; a failure is re-thrown. */
    method FinishGetMessages(res: Response<seq<Message>>) returns (st: Settled)
      modifies this
      ensures st == Propagate(res) && HistoryFetched(res)
    {
      if res.Ok? {
        messages := res.payload;
      }
      st := Propagate(res);
      isMessagesLoading := false;
    }

    /** `getMessages(userId)`: requests the history of `userId`. */
    method GetMessages(userId: string, res: Response<seq<Message>>) returns (st: Settled, requested: string)
      modifies this
      ensures requested == userId
      ensures st == Propagate(res) && HistoryFetched(res)
    {
      requested := StartGetMessages(userId);
      st := FinishGetMessages(res);
    }

    /** `sendMessage` up to its await: reads the selected contact and a
        snapshot of the history, and posts `draft` to that contact. */
    method StartSendMessage(draft: Draft) returns (request: Posted, snapshot: seq<Message>)
      ensures request == Posted(RecipientId(selectedUser), draft)
      ensures snapshot == messages
    {
      request := Posted(RecipientId(selectedUser), draft);
      snapshot := messages;
    }

    /** `sendMessage` after its await: a success sets the history to the
        snapshot read before the request with the confirmed message added at
        the end (so anything appended meanwhile is overwritten); a failure
        changes nothing and is re-thrown. */
    method FinishSendMessage(snapshot: seq<Message>, res: Response<Message>) returns (st: Settled)
      modifies this
      ensures st == Propagate(res)
      ensures messages == (if res.Ok? then snapshot + [res.payload] else old(messages))
      ensures users == old(users) && selectedUser == old(selectedUser)
      ensures isUsersLoading == old(isUsersLoading) && isMessagesLoading == old(isMessagesLoading)
    {
      if res.Ok? {
        messages := snapshot + [res.payload];
      }
      st := Propagate(res);
    }

    /** What `sendMessage` does when nothing else touches the store while
        its request is pending: a success appends exactly the confirmed
        message after the unchanged earlier ones, a failure changes nothing;
        nothing but the history changes. */
    twostate predicate MessageSent(res: Response<Message>)
      reads this
    {
      && messages == (if res.Ok? then old(messages) + [res.payload] else old(messages))
      && users == old(users) && selectedUser == old(selectedUser)
      && isUsersLoading == old(isUsersLoading) && isMessagesLoading == old(isMessagesLoading)
    }

    /** `sendMessage(draft)` run without interleaving. */
    method SendMessage(draft: Draft, res: Response<Message>) returns (st: Settled, request: Posted)
      modifies this
      ensures request == Posted(RecipientId(old(selectedUser)), draft)
      ensures st == Propagate(res) && MessageSent(res)
    {
      var snapshot;
      request, snapshot := StartSendMessage(draft);
      st := FinishSendMessage(snapshot, res);
    }

    /** `subscribeToMessages`: registers a `newMessage` handler that captured
        the currently selected contact, on the session's socket; registers
        nothing when no contact is selected or there is no socket. */
    method SubscribeToMessages(auth: AuthStore) returns (registered: bool)
      modifies auth.socket
      ensures registered == (selectedUser.Some? && auth.socket != null)
      ensures registered ==>
        auth.socket.messageListeners == old(auth.socket.messageListeners) + [selectedUser.value]
      ensures !registered && auth.socket != null ==>
        auth.socket.messageListeners == old(auth.socket.messageListeners)
      ensures auth.socket != null ==>
        auth.socket.connected == old(auth.socket.connected)
        && auth.socket.listensOnlineUsers == old(auth.socket.listensOnlineUsers)
    {
      registered := false;
      if selectedUser.None? {
        return;
      }
      if auth.socket != null {
        auth.socket.OnNewMessage(selectedUser.value);
        registered := true;
      }
    }

    /** `unsubscribeFromMessages`: removes every `newMessage` handler from
        the session's socket, if there is one. */
    method UnsubscribeFromMessages(auth: AuthStore)
      modifies auth.socket
      ensures auth.socket != null ==>
        auth.socket.messageListeners == []
        && auth.socket.connected == old(auth.socket.connected)
        && auth.socket.listensOnlineUsers == old(auth.socket.listensOnlineUsers)
    {
      if auth.socket != null {
        auth.socket.OffNewMessage();
      }
    }

    /** `setSelectedUser`: changes the selection and nothing else. */
    method SetSelectedUser(user: Option<User>)
      modifies this
      ensures selectedUser == user
      ensures messages == old(messages) && users == old(users)
      ensures isUsersLoading == old(isUsersLoading) && isMessagesLoading == old(isMessagesLoading)
    {
      selectedUser := user;
    }

    /** A `newMessage` event `m` arriving on handle `s`: if `s` is connected,
        each handler registered on it runs in turn and appends `m` when `m`
        was sent by the contact it captured. Nothing but the history
        changes. */
    method DeliverNewMessage(s: Socket, m: Message)
      modifies this
      ensures messages == old(messages) + (if s.connected then AppendedBy(s.messageListeners, m) else [])
      ensures users == old(users) && selectedUser == old(selectedUser)
      ensures isUsersLoading == old(isUsersLoading) && isMessagesLoading == old(isMessagesLoading)
    {
      if s.connected {
        var listeners := s.messageListeners;
        var i := 0;
        while i < |listeners|
          invariant 0 <= i <= |listeners|
          invariant messages == old(messages) + AppendedBy(listeners[..i], m)
          invariant users == old(users) && selectedUser == old(selectedUser)
          invariant isUsersLoading == old(isUsersLoading) && isMessagesLoading == old(isMessagesLoading)
        {
          var step := if listeners[i].id == m.senderId then [m] else [];
          assert AppendedBy(listeners[..i + 1], m) == AppendedBy(listeners[..i], m) + step by {
            assert listeners[..i + 1][..i] == listeners[..i];
          }
          if listeners[i].id == m.senderId {
            messages := messages + [m];
          }
          i := i + 1;
        }
        assert listeners[..i] == listeners;
      }
    }
  }
}
