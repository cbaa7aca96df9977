/** Whole sessions run against the stores and the selection effect, with
    fixed backend answers and socket events: what the user ends up seeing. */
module Scenarios {
  import opened Domain
  import opened Auth
  import opened Chat
  import opened ChatView

  const Me: User := User("u1", "me@example.com", "", "Ada", "Lovelace", "2024-01-01T09:00:00Z")
  const Contact: User := User("u42", "bob@example.com", "", "Bob", "Builder", "2024-01-01T09:00:00Z")
  const History: Message := Message("m1", "", "hi", "u42", "u1", "2024-01-01T10:00:00Z")
  const Live: Message := Message("m2", "", "yo", "u42", "u1", "2024-01-01T10:01:00Z")
  const Stranger: Message := Message("m3", "", "spam", "u7", "u1", "2024-01-01T10:02:00Z")

  /** Signs in `Me` through a successful session check, selects `Contact`
      and runs the selection effect, which requests `Contact`'s history and
      is answered `[History]`. */
  method OpenConversation() returns (auth: AuthStore, chat: ChatStore, requested: string)
    ensures requested == "u42"
    ensures fresh(auth) && fresh(chat) && fresh(auth.socket)
    ensures auth.socket != null && auth.socket.connected
    ensures auth.socket.messageListeners == [Contact]
    ensures chat.selectedUser == Some(Contact) && chat.messages == [History]
    ensures !chat.isMessagesLoading
  {
    auth := new AuthStore();
    var checked := auth.CheckAuth(Ok(Me));
    chat := new ChatStore();
    chat.SetSelectedUser(Some(Contact));
    var hasCleanup;
    hasCleanup, requested := SelectionEffect(chat, auth, Ok([History]));
  }

  /** The history fetched for the selected contact is shown as it was
      returned; a live message from that contact is appended after it, and
      one from anybody else is ignored. */
  method HistoryThenLiveMessage() returns (shown: seq<Message>)
    ensures shown == [History, Live]
  {
    var auth, chat, requested := OpenConversation();
    chat.DeliverNewMessage(auth.socket, Live);
    assert chat.messages == [History] + AppendedBy([Contact], Live);
    chat.DeliverNewMessage(auth.socket, Stranger);
    assert chat.messages == [History, Live] + AppendedBy([Contact], Stranger);
    shown := chat.messages;
  }

  /** A live message that arrives while a send is pending is lost when the
      send succeeds: the history is rebuilt from the snapshot taken before
      the request. */
  method LiveMessageDuringSendIsLost(reply: Message) returns (shown: seq<Message>)
    ensures shown == [History, reply]
    ensures Live !in shown || reply == Live
  {
    var auth, chat, requested := OpenConversation();
    var request, snapshot := chat.StartSendMessage(Draft("hey", None));
    chat.DeliverNewMessage(auth.socket, Live);
    assert chat.messages == [History] + AppendedBy([Contact], Live);
    var st := chat.FinishSendMessage(snapshot, Ok(reply));
    shown := chat.messages;
  }

  /** Once the user has logged out, nothing the old connection carries
      reaches the history any more. */
  method LiveMessageAfterLogoutIsIgnored() returns (shown: seq<Message>, signedIn: bool)
    ensures shown == [History] && !signedIn
  {
    var auth, chat, requested := OpenConversation();
    var st := auth.Logout(Ok(()));
    chat.DeliverNewMessage(auth.socket, Live);
    shown := chat.messages;
    signedIn := auth.authUser.Some?;
  }

  /** A session check that fails on a fresh store leaves nobody signed in
      and no live connection; logging out twice after signing in ends where
      logging out once does. */
  method FailedCheckAndDoubleLogout() returns (failedUser: Option<User>, failedLive: bool, onceUser: Option<User>, onceLive: bool, twiceUser: Option<User>, twiceLive: bool)
    ensures failedUser == None && !failedLive
    ensures onceUser == twiceUser == None
    ensures onceLive == twiceLive == false
  {
    var guest := new AuthStore();
    var failed := guest.CheckAuth(Err("Unauthorized"));
    failedUser, failedLive := guest.authUser, guest.HasLiveSocket();
    var auth := new AuthStore();
    var checked := auth.CheckAuth(Ok(Me));
    var first := auth.Logout(Ok(()));
    onceUser, onceLive := auth.authUser, auth.HasLiveSocket();
    var second := auth.Logout(Ok(()));
    twiceUser, twiceLive := auth.authUser, auth.HasLiveSocket();
  }

  /** A second successful session check opens a new handle without
      disconnecting the first. After a successful logout the first handle is
      still connected with its presence handler, so a presence event on it
      overwrites the presence list while nobody is signed in, and the store
      still counts as consistent because only the `socket` field is
      looked at. */
  method StaleSocketAfterSecondCheck() returns (stillLive: bool, presence: seq<string>, signedIn: bool, consistent: bool)
    ensures stillLive && presence == ["u9"] && !signedIn && consistent
  {
    var auth := new AuthStore();
    var first := auth.CheckAuth(Ok(Me));
    var stale := auth.socket;
    var second := auth.CheckAuth(Ok(Me));
    var out := auth.Logout(Ok(()));
    stillLive := stale.connected;
    auth.ReceiveOnlineUsers(stale, ["u9"]);
    presence, signedIn, consistent := auth.onlineUsers, auth.authUser.Some?, auth.Consistent();
  }
}
