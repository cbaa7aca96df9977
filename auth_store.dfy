/** The session store: who is signed in, the realtime connection opened for
    them, the presence list it mirrors, and one in-flight flag per
    asynchronous operation. Each backend call is an input `Response`; each
    operation returns how its promise settles. Operations that raise a flag
    before awaiting are split at the await into `Start…` (the state the view
    sees while the request is pending) and `Finish…` (what the resolution
    does); the operation itself runs the two in turn. */
module Auth {
  import opened Domain
  import opened Realtime

  const AppName: string := "Chattify"

  class AuthStore {
    var authUser: Option<User>
    const appName: string
    var isCheckingAuth: bool
    var isSigningUp: bool
    var isLoggingIn: bool
    var isUpdatingProfile: bool
    var onlineUsers: seq<string>
    var socket: Socket?

    /** The `socket` field holds a handle that has not been disconnected. */
    predicate HasLiveSocket()
      reads this, socket
    {
      socket != null && socket.connected
    }

    /** The handle in `socket` is live only while someone is signed in.
        Handles that `socket` held before are not looked at. */
    predicate Consistent()
      reads this, socket
    {
      HasLiveSocket() ==> authUser.Some?
    }

    /** `socket` is a handle as `connectSocket` leaves it for `u`: its query
        carries `u`'s id and first name, it is connected, and only the
        presence handler is registered on it. */
    predicate ConnectedAs(u: User)
      reads this, socket
    {
      && socket != null
      && socket.userId == u.id && socket.name == u.firstName
      && socket.connected && socket.listensOnlineUsers && socket.messageListeners == []
    }

    /** The store as it is created: nobody signed in, the session check
        pending, no other request in flight, no presence list, no socket. */
    constructor ()
      ensures authUser == None && appName == AppName
      ensures isCheckingAuth && !isSigningUp && !isLoggingIn && !isUpdatingProfile
      ensures onlineUsers == [] && socket == null
      ensures Consistent()
    {
      authUser := None;
      appName := AppName;
      isCheckingAuth := true;
      isSigningUp := false;
      isLoggingIn := false;
      isUpdatingProfile := false;
      onlineUsers := [];
      socket := null;
    }

    /** `connectSocket`: nothing without a signed-in user; otherwise a new
        handle for that user, with the presence handler registered, replaces
        the `socket` field (a previous handle is left as it was). */
    method ConnectSocket()
      modifies this
      ensures authUser == old(authUser) && onlineUsers == old(onlineUsers)
      ensures isCheckingAuth == old(isCheckingAuth) && isSigningUp == old(isSigningUp)
      ensures isLoggingIn == old(isLoggingIn) && isUpdatingProfile == old(isUpdatingProfile)
      ensures old(authUser).None? ==> socket == old(socket)
      ensures old(authUser).Some? ==> fresh(socket) && ConnectedAs(authUser.value)
      ensures old(Consistent()) ==> Consistent()
    {
      if authUser.Some? {
        var s := new Socket(authUser.value.id, authUser.value.firstName);
        socket := s;
        s.OnGetOnlineUsers();
      }
    }

    /** `disconnectSocket`: disconnects the handle if there is one, and never
        clears the `socket` field. */
    method DisconnectSocket()
      modifies socket
      ensures !HasLiveSocket() && Consistent()
      ensures socket != null ==> socket.listensOnlineUsers == old(socket.listensOnlineUsers)
      ensures socket != null ==> socket.messageListeners == old(socket.messageListeners)
    {
      if socket != null {
        socket.Disconnect();
      }
    }

    /** `checkAuth`: on success the returned user is signed in and a socket
        is opened for them; on failure the socket (if any) is disconnected,
        the signed-in user is kept, and the error is re-thrown. Either way
        the session check is over. */
    method CheckAuth(res: Response<User>) returns (st: Settled)
      modifies this, socket
      ensures st == Propagate(res) && !isCheckingAuth
      ensures isSigningUp == old(isSigningUp) && isLoggingIn == old(isLoggingIn)
      ensures isUpdatingProfile == old(isUpdatingProfile) && onlineUsers == old(onlineUsers)
      ensures res.Ok? ==> authUser == Some(res.payload) && fresh(socket) && ConnectedAs(res.payload)
      ensures res.Ok? && old(socket) != null ==> unchanged(old(socket))
      ensures res.Err? ==> authUser == old(authUser) && socket == old(socket) && !HasLiveSocket()
      ensures res.Err? && socket != null ==>
        socket.listensOnlineUsers == old(socket.listensOnlineUsers) && socket.messageListeners == old(socket.messageListeners)
      ensures Consistent()
    {
      match res {
        case Ok(u) =>
          authUser := Some(u);
          ConnectSocket();
          st := Resolved;
        case Err(e) =>
          DisconnectSocket();
          st := Rejected(e);
      }
      isCheckingAuth := false;
    }

    /** What `signup` does once its request settles: the flag is down; on
        success the new user is signed in with a fresh socket, on failure the
        session is as it was; nothing else changes. */
    twostate predicate SignedUp(res: Response<User>)
      reads this, socket
    {
      && !isSigningUp
      && isCheckingAuth == old(isCheckingAuth) && isLoggingIn == old(isLoggingIn)
      && isUpdatingProfile == old(isUpdatingProfile) && onlineUsers == old(onlineUsers)
      && (res.Ok? ==> authUser == Some(res.payload) && fresh(socket) && ConnectedAs(res.payload))
      && (res.Err? ==> authUser == old(authUser) && socket == old(socket))
    }

    /** `signup` up to its await: only `isSigningUp` is raised. */
    method StartSignup()
      modifies this
      ensures isSigningUp
      ensures authUser == old(authUser) && socket == old(socket) && onlineUsers == old(onlineUsers)
      ensures isCheckingAuth == old(isCheckingAuth) && isLoggingIn == old(isLoggingIn)
      ensures isUpdatingProfile == old(isUpdatingProfile)
    {
      isSigningUp := true;
    }

    /** `signup` after its await. */
    method FinishSignup(res: Response<User>) returns (st: Settled)
      modifies this
      ensures st == Propagate(res) && SignedUp(res)
      ensures old(Consistent()) ==> Consistent()
    {
      match res {
        case Ok(u) =>
          authUser := Some(u);
          ConnectSocket();
          st := Resolved;
        case Err(e) =>
          st := Rejected(e);
      }
      isSigningUp := false;
    }

    /** `signup(input)`: posts `input` as the request body. */
    method Signup(input: SignUpFormData, res: Response<User>) returns (st: Settled, posted: SignUpFormData)
      modifies this
      ensures posted == input
      ensures st == Propagate(res) && SignedUp(res)
      ensures old(Consistent()) ==> Consistent()
    {
      StartSignup();
      posted := input;
      st := FinishSignup(res);
    }

    /** `logout`: on success nobody is signed in and the socket is
        disconnected but kept in the field; on failure nothing changes and the
        error is re-thrown. A successful logout from a signed-out state with
        no live socket changes nothing, so logging out twice ends where
        logging out once does. */
    method Logout(res: Response<()>) returns (st: Settled)
      modifies this, socket
      ensures st == Propagate(res)
      ensures isCheckingAuth == old(isCheckingAuth) && isSigningUp == old(isSigningUp)
      ensures isLoggingIn == old(isLoggingIn) && isUpdatingProfile == old(isUpdatingProfile)
      ensures onlineUsers == old(onlineUsers) && socket == old(socket)
      ensures res.Ok? ==> authUser == None && !HasLiveSocket() && Consistent()
      ensures res.Ok? && socket != null ==>
        socket.listensOnlineUsers == old(socket.listensOnlineUsers) && socket.messageListeners == old(socket.messageListeners)
      ensures res.Err? ==> authUser == old(authUser) && (socket != null ==> unchanged(socket))
      ensures res.Ok? && old(authUser).None? && !old(HasLiveSocket()) ==>
        authUser == old(authUser) && (socket != null ==> socket.connected == old(socket.connected))
      ensures old(Consistent()) ==> Consistent()
    {
      match res {
        case Ok(_) =>
          authUser := None;
          DisconnectSocket();
          st := Resolved;
        case Err(e) =>
          st := Rejected(e);
      }
    }

    /** What `login` does once its request settles: the flag is down; on
        success the user is signed in with a fresh socket, on failure
        nobody is signed in and the socket field is left as it was; nothing
        else changes. */
    twostate predicate LoggedIn(res: Response<User>)
      reads this, socket
    {
      && !isLoggingIn
      && isCheckingAuth == old(isCheckingAuth) && isSigningUp == old(isSigningUp)
      && isUpdatingProfile == old(isUpdatingProfile) && onlineUsers == old(onlineUsers)
      && (res.Ok? ==> authUser == Some(res.payload) && fresh(socket) && ConnectedAs(res.payload))
      && (res.Err? ==> authUser == None && socket == old(socket))
    }

    /** `login` up to its await: only `isLoggingIn` is raised. */
    method StartLogin()
      modifies this
      ensures isLoggingIn
      ensures authUser == old(authUser) && socket == old(socket) && onlineUsers == old(onlineUsers)
      ensures isCheckingAuth == old(isCheckingAuth) && isSigningUp == old(isSigningUp)
      ensures isUpdatingProfile == old(isUpdatingProfile)
    {
      isLoggingIn := true;
    }

    /** `login` after its await. A failure signs out without disconnecting,
        so the session stays consistent exactly when there was no live
        socket to begin with. */
    method FinishLogin(res: Response<User>) returns (st: Settled)
      modifies this
      ensures st == Propagate(res) && LoggedIn(res)
      ensures Consistent() <==> res.Ok? || !old(HasLiveSocket())
    {
      match res {
        case Ok(u) =>
          authUser := Some(u);
          ConnectSocket();
          st := Resolved;
        case Err(e) =>
          authUser := None;
          st := Rejected(e);
      }
      isLoggingIn := false;
    }

    /** `login(input)`: posts `input` as the request body. */
    method Login(input: LoginFormData, res: Response<User>) returns (st: Settled, posted: LoginFormData)
      modifies this
      ensures posted == input
      ensures st == Propagate(res) && LoggedIn(res)
      ensures Consistent() <==> res.Ok? || !old(HasLiveSocket())
    {
      StartLogin();
      posted := input;
      st := FinishLogin(res);
    }

    /** What `updateProfile` does once its request settles: the flag is
        down; on success the returned user replaces the signed-in one (the
        socket is not reopened), on failure the user is kept; nothing else
        changes. */
    twostate predicate ProfileUpdated(res: Response<User>)
      reads this
    {
      && !isUpdatingProfile
      && isCheckingAuth == old(isCheckingAuth) && isSigningUp == old(isSigningUp)
      && isLoggingIn == old(isLoggingIn) && onlineUsers == old(onlineUsers)
      && socket == old(socket)
      && authUser == (if res.Ok? then Some(res.payload) else old(authUser))
    }

    /** `updateProfile` up to its await: only `isUpdatingProfile` is raised. */
    method StartUpdateProfile()
      modifies this
      ensures isUpdatingProfile
      ensures authUser == old(authUser) && socket == old(socket) && onlineUsers == old(onlineUsers)
      ensures isCheckingAuth == old(isCheckingAuth) && isSigningUp == old(isSigningUp)
      ensures isLoggingIn == old(isLoggingIn)
    {
      isUpdatingProfile := true;
    }

    /** `updateProfile` after its await. */
    method FinishUpdateProfile(res: Response<User>) returns (st: Settled)
      modifies this
      ensures st == Propagate(res) && ProfileUpdated(res)
      ensures old(Consistent()) ==> Consistent()
    {
      match res {
        case Ok(u) =>
          authUser := Some(u);
          st := Resolved;
        case Err(e) =>
          st := Rejected(e);
      }
      isUpdatingProfile := false;
    }

    /** `updateProfile(profilePic)`: posts `{ profilePic }` as the request
        body. */
    method UpdateProfile(profilePic: string, res: Response<User>) returns (st: Settled, posted: string)
      modifies this
      ensures posted == profilePic
      ensures st == Propagate(res) && ProfileUpdated(res)
      ensures old(Consistent()) ==> Consistent()
    {
      StartUpdateProfile();
      posted := profilePic;
      st := FinishUpdateProfile(res);
    }

    /** A `getOnlineUsers` event arriving on handle `s`: if `s` is connected
        and has the presence handler, the payload replaces `onlineUsers`
        verbatim; nothing else changes. */
    method ReceiveOnlineUsers(s: Socket, userIds: seq<string>)
      modifies this
      ensures onlineUsers == (if s.connected && s.listensOnlineUsers then userIds else old(onlineUsers))
      ensures authUser == old(authUser) && socket == old(socket)
      ensures isCheckingAuth == old(isCheckingAuth) && isSigningUp == old(isSigningUp)
      ensures isLoggingIn == old(isLoggingIn) && isUpdatingProfile == old(isUpdatingProfile)
    {
      if s.connected && s.listensOnlineUsers {
        onlineUsers := userIds;
      }
    }
  }
}
