# Chattify client core in Dafny

A model of the browser client of Chattify, a one-to-one chat application.
It covers:

- the **session store** (`useAuthStore`): who is signed in, the realtime
  connection opened for them, the presence list, and the in-flight flags;
- the **conversation store** (`useChatStore`): contacts, the selected
  contact, the message history, the send path, and the realtime `newMessage`
  subscription;
- the **sign-up page**: form state, `validateForm`, `handleSubmit`;
- the **message composer**: text and image preview, the picker's type check,
  the send guard, the disabled send button;
- the **conversation pane**: `parseTime`, bubble side and avatar, the loading
  branch, and the selection effect that fetches history and subscribes;
- the **route guards** `ProtectedRoutes` and `GuestRoutes`.

Modelling choices:

- The stores, the components' local state and the socket handle are classes.
  Their fields are updated in place by methods with `modifies` clauses.
- Each backend call is an input `Response<T>`, either `Ok(payload)` or
  `Err(reason)`. Each store operation returns how its promise settles
  (`Settled`); every operation re-throws the backend error unchanged.
- An operation that raises a loading flag before awaiting is split at the
  await. `Start…` gives the state the view sees while the request is pending;
  `Finish…` gives what the resolution does.
- A realtime event is a method call that receives the socket handle it arrives
  on. A disconnected handle delivers nothing.
- JavaScript string semantics are written out in `JsText`. That covers the
  ECMAScript whitespace set of `trim`, `split` on one character, and
  `length` in UTF-16 code units. `undefined` concatenated into a string
  becomes the text `"undefined"`.

Files:

| file | module | models |
|---|---|---|
| `domain.dfy` | `Domain` | `User`, `Message`, backend outcomes, request bodies |
| `jstext.dfy` | `JsText` | `trim`, `split`, `startsWith`, UTF-16 `length` |
| `realtime.dfy` | `Realtime` | the socket.io handle: query, `connected`, registered handlers |
| `auth_store.dfy` | `Auth` | `useAuthStore` |
| `chat_store.dfy` | `Chat` | `useChatStore` |
| `signup_page.dfy` | `SignUp` | `SignUpPage` |
| `message_input.dfy` | `Composer` | `MessageInput` |
| `chat_container.dfy` | `ChatView` | `ChatContainer` |
| `routes.dfy` | `Routes` | `ProtectedRoutes`, `GuestRoutes` |
| `scenarios.dfy` | `Scenarios` | whole sessions run against the stores |

Behaviours of the code worth knowing:

- A failed session check or a logout disconnects the socket but never clears
  the store's `socket` field. The handle stays, disconnected. The model states
  that the handle in the field is not connected (`HasLiveSocket` is false),
  not "no socket".
- A failed session check keeps whatever user was signed in before. It does not
  set it to null. From the initial store that user is null, as
  `Scenarios.FailedCheckAndDoubleLogout` shows.
- A failed login clears the user but does not disconnect. So a failed login
  from a live session leaves a live socket with nobody signed in.
  `Auth.AuthStore.Login` states exactly when the session stays consistent.
- `connectSocket` (src/store/useAuthStore.ts:110-125) replaces the handle in
  the `socket` field without disconnecting the one already there. After two
  successful session checks and a successful logout, the first handle is still
  connected and still listening for presence. A `getOnlineUsers` event on it
  overwrites the presence list while nobody is signed in.
  `Scenarios.StaleSocketAfterSecondCheck` shows this.
- `parseTime` keeps the first two `:`-separated fields after the `T`, not a
  fixed "hours and minutes" shape. A timestamp without seconds keeps its zone:
  "2024-01-01T10:00Z" is shown as "2024-01-01 10:00Z"
  (`ChatView.ParseTimeKeepsZoneExample`).
- `Auth.AuthStore.Consistent` speaks only of the handle held in the `socket`
  field. Handles that were replaced, as above, can stay live while it holds.

## Model

| member | source | states |
|---|---|---|
| Domain.Propagate | src/store/useChatStore.ts:35-36 | a store operation resolves exactly when the backend call succeeded and otherwise rejects with the same error (`catch (error) { throw error }`) |
| JsText.WhitespaceTable | src/components/MessageInput.tsx:44 | `IsJsWhitespace`, the set `trim` strips, is exactly the ECMAScript WhiteSpace and LineTerminator code points |
| JsText.LeadingBlanks | src/components/MessageInput.tsx:44 | the leading run `trim` strips: every character before it is whitespace and the next one, if any, is not |
| JsText.TrailingBlanks | src/components/MessageInput.tsx:44 | the trailing run `trim` strips: every character after it is whitespace and the one before it, if any, is not |
| JsText.Trim | src/components/MessageInput.tsx:50 | `text.trim()` is the slice of the text that starts right after its leading whitespace; everything after the slice is whitespace; the slice neither starts nor ends with whitespace |
| JsText.TrimEmptyIffBlank | src/components/MessageInput.tsx:44 | `!text.trim()` holds exactly when every character is whitespace, including the empty text |
| JsText.StartsWith | src/components/MessageInput.tsx:18 | `type.startsWith(prefix)` holds exactly when `prefix` is an initial slice of the type |
| JsText.Utf16Length | src/pages/SignUpPage.tsx:60 | `password.length` counts UTF-16 code units: between the number of characters and twice that |
| JsText.Utf16LengthOfBmp | src/pages/SignUpPage.tsx:60 | for text of Basic Multilingual Plane characters `length` is the number of characters |
| JsText.Utf16LengthOfChar | src/pages/SignUpPage.tsx:60 | one character has `length` 1, or 2 above U+FFFF |
| JsText.Utf16LengthConcat | src/pages/SignUpPage.tsx:60 | `length` of a concatenation is the sum of the lengths, so with `Utf16LengthOfChar` it is fixed for every text |
| JsText.IndexOf | src/components/ChatContainer.tsx:21 | the position `split` cuts at is the first occurrence of the separator |
| JsText.Split | src/components/ChatContainer.tsx:21-23 | `split` gives at least one piece, two or more exactly when the separator occurs, pieces without the separator, and joining them back gives the input |
| JsText.SplitAtFirst | src/components/ChatContainer.tsx:21 | splitting `a sep b` with no separator in `a` gives `a` followed by the pieces of `b` |
| JsText.SplitHeadAppend | src/components/ChatContainer.tsx:21-23 | the first piece of `a + b` is `a` followed by the first piece of `b` when `a` has no separator |
| Auth.AuthStore.constructor | src/store/useAuthStore.ts:26-34 | the initial session store: nobody signed in, the check pending, no request in flight, no presence list, no socket, app name "Chattify" |
| Auth.AuthStore.ConnectSocket | src/store/useAuthStore.ts:110-125 | does nothing without a user; otherwise a fresh connected handle whose query carries the user's id and first name, with the presence handler registered, replaces the field |
| Auth.AuthStore.DisconnectSocket | src/store/useAuthStore.ts:126-131 | afterwards the handle in `socket`, if any, is not connected; it and its handlers are kept; handles replaced earlier are not touched |
| Auth.AuthStore.CheckAuth | src/store/useAuthStore.ts:36-47 | success signs in the returned user with a fresh connected socket; failure disconnects the handle in `socket` keeping its handlers, keeps the user and re-throws; the check flag is down either way |
| Auth.AuthStore.StartSignup | src/store/useAuthStore.ts:49-51 | while the request is pending only `isSigningUp` is raised |
| Auth.AuthStore.FinishSignup | src/store/useAuthStore.ts:53-62 | success signs in the returned user with a fresh socket; failure changes nothing and re-throws; the flag comes down; a consistent session stays consistent |
| Auth.AuthStore.Signup | src/store/useAuthStore.ts:49-63 | the whole `signup` call posts its input as the body, has the effect `SignedUp` and keeps a consistent session consistent |
| Auth.AuthStore.Logout | src/store/useAuthStore.ts:65-75 | success clears the user and the handle in `socket`, if any, is not connected; failure changes nothing; from a state with nobody signed in and no live handle in `socket` (as a successful logout leaves), a successful logout changes nothing |
| Auth.AuthStore.StartLogin | src/store/useAuthStore.ts:77-79 | while the request is pending only `isLoggingIn` is raised |
| Auth.AuthStore.FinishLogin | src/store/useAuthStore.ts:81-91 | success signs in with a fresh socket; failure clears the user without disconnecting, so the session stays consistent exactly when it succeeded or had no live socket |
| Auth.AuthStore.Login | src/store/useAuthStore.ts:77-92 | the whole `login` call posts its input as the body, has the effect `LoggedIn` and the same consistency condition |
| Auth.AuthStore.StartUpdateProfile | src/store/useAuthStore.ts:94-96 | while the request is pending only `isUpdatingProfile` is raised |
| Auth.AuthStore.FinishUpdateProfile | src/store/useAuthStore.ts:98-107 | success replaces the signed-in user and keeps the socket; failure keeps the user; the flag comes down |
| Auth.AuthStore.UpdateProfile | src/store/useAuthStore.ts:94-108 | the whole `updateProfile` call posts the picture as the body, has the effect `ProfileUpdated` and keeps a consistent session consistent |
| Auth.AuthStore.ReceiveOnlineUsers | src/store/useAuthStore.ts:122-124 | a `getOnlineUsers` event on a live handle with the presence handler replaces the presence list verbatim; nothing else changes |
| Realtime.Socket.constructor | src/store/useAuthStore.ts:114-119 | a new handle carries the handshake query, is connected and has no handlers |
| Realtime.Socket.Disconnect | src/store/useAuthStore.ts:129 | the handle stops being connected and keeps its handlers |
| Realtime.Socket.OnGetOnlineUsers | src/store/useAuthStore.ts:122 | registers the presence handler |
| Realtime.Socket.OnNewMessage | src/store/useChatStore.ts:81 | appends one `newMessage` handler after the earlier ones |
| Realtime.Socket.OffNewMessage | src/store/useChatStore.ts:93 | removes every `newMessage` handler |
| Chat.AppendedBy | src/store/useChatStore.ts:81-87 | one `newMessage` event appends at most one copy of the message per handler, and nothing but that message |
| Chat.AppendedNothingIff | src/store/useChatStore.ts:82 | an event appends nothing exactly when no handler's captured contact sent it |
| Chat.AppendedBySingle | src/store/useChatStore.ts:82-86 | one handler appends the message exactly when its captured contact sent it, and nothing otherwise |
| Chat.AppendedByConcat | src/store/useChatStore.ts:81-87 | handlers registered in two batches append what the first batch appends, then what the second appends |
| Chat.RecipientId | src/store/useChatStore.ts:60-63 | the path's contact id is the selected contact's id; without a selection it is the text "undefined", which a contact with that id would also produce |
| Chat.ChatStore.constructor | src/store/useChatStore.ts:21-25 | the initial conversation store: empty lists, no selection, nothing loading |
| Chat.ChatStore.StartGetUsers | src/store/useChatStore.ts:29 | while the request is pending only `isUsersLoading` is raised |
| Chat.ChatStore.FinishGetUsers | src/store/useChatStore.ts:31-39 | success replaces the contact list; failure keeps it and re-throws; the flag comes down |
| Chat.ChatStore.GetUsers | src/store/useChatStore.ts:28-40 | the whole `getUsers` call has the effect `UsersFetched` |
| Chat.ChatStore.StartGetMessages | src/store/useChatStore.ts:42-47 | the history requested is the given contact's; while the request is pending `isMessagesLoading` is true and nothing else changes |
| Chat.ChatStore.FinishGetMessages | src/store/useChatStore.ts:45-53 | success replaces the whole history, discarding earlier messages of any contact; failure keeps it; the flag is false either way |
| Chat.ChatStore.GetMessages | src/store/useChatStore.ts:42-54 | the whole `getMessages` call requests the given contact's history and has the effect `HistoryFetched` |
| Chat.ChatStore.StartSendMessage | src/store/useChatStore.ts:58-65 | the request goes to the selected contact's id ("undefined" without one) and the history is read before the await |
| Chat.ChatStore.FinishSendMessage | src/store/useChatStore.ts:67 | success sets the history to the earlier snapshot plus the confirmed message; failure changes nothing and re-throws |
| Chat.ChatStore.SendMessage | src/store/useChatStore.ts:56-71 | without interleaving, success appends exactly the confirmed message after the unchanged history; failure changes nothing |
| Chat.ChatStore.SubscribeToMessages | src/store/useChatStore.ts:73-89 | registers one handler capturing the selected contact exactly when a contact is selected and a socket exists; the connection is untouched |
| Chat.ChatStore.UnsubscribeFromMessages | src/store/useChatStore.ts:91-94 | removes every `newMessage` handler from the session's socket, if any |
| Chat.ChatStore.SetSelectedUser | src/store/useChatStore.ts:96 | changes the selection and nothing else |
| Chat.ChatStore.DeliverNewMessage | src/store/useChatStore.ts:81-87 | an event on a live handle appends what `AppendedBy` gives for its handlers, in registration order; on a dead handle nothing changes |
| SignUp.FailedChecks | src/pages/SignUpPage.tsx:44-62 | the five checks in order, without trimming, the length in UTF-16 code units |
| SignUp.ValidateForm | src/pages/SignUpPage.tsx:38-65 | valid exactly when all four fields are non-empty and the password has at least six code units; otherwise the message of the first failing check |
| SignUp.PasswordLengthBoundary | src/pages/SignUpPage.tsx:60-62 | for ordinary characters six characters pass and five are rejected with the length message |
| SignUp.AstralPasswordOfFiveCharactersPasses | src/pages/SignUpPage.tsx:60 | a five-character password with one character outside the BMP passes, since `length` counts it twice |
| SignUp.SignUpPage.constructor | src/pages/SignUpPage.tsx:27-32 | the form starts with four empty fields |
| SignUp.SignUpPage.SetFirstName | src/pages/SignUpPage.tsx:121 | the input's change replaces only the first name |
| SignUp.SignUpPage.SetLastName | src/pages/SignUpPage.tsx:140 | the input's change replaces only the last name |
| SignUp.SignUpPage.SetEmail | src/pages/SignUpPage.tsx:159 | the input's change replaces only the email |
| SignUp.SignUpPage.SetPassword | src/pages/SignUpPage.tsx:178 | the input's change replaces only the password |
| SignUp.SignUpPage.HandleSubmit | src/pages/SignUpPage.tsx:67-86 | an invalid form posts nothing and leaves the session store untouched; a valid one posts the form data through `signup` and reports success or the caught failure |
| Composer.HasPreview | src/components/MessageInput.tsx:44 | the preview is falsy exactly when it is null or the empty string |
| Composer.SendGuardRejects | src/components/MessageInput.tsx:44 | the send guard rejects exactly when the text is all whitespace (or empty) and there is no non-empty preview |
| Composer.MessageInput.constructor | src/components/MessageInput.tsx:8-9 | the composer starts with no text and no preview |
| Composer.MessageInput.SetText | src/components/MessageInput.tsx:97 | the text input replaces the text only |
| Composer.MessageInput.HandleImageChange | src/components/MessageInput.tsx:13-32 | a missing file or a type not starting with `image/` keeps the preview; an image becomes the preview |
| Composer.MessageInput.RemoveImage | src/components/MessageInput.tsx:34-38 | the preview is dropped and the text kept |
| Composer.MessageInput.SubmitDisabled | src/components/MessageInput.tsx:122 | the send button is disabled exactly when the send handler's guard would reject |
| Composer.MessageInput.SendDraft | src/components/MessageInput.tsx:47-66 | the draft goes to the selected contact; success clears the text and the preview, a caught failure keeps both |
| Composer.MessageInput.HandleSendMessage | src/components/MessageInput.tsx:40-67 | a rejected guard sends nothing and changes nothing; otherwise the trimmed text and preview go to the selected contact, success clears the composer, failure keeps it |
| ChatView.HoursMinutes | src/components/ChatContainer.tsx:23-25 | with a `:` in the text after the `T` the result is its longest prefix holding exactly one `:` (it stops at the second `:` or at the end); without one it is that text followed by ":undefined" |
| ChatView.OneColonPrefix | src/components/ChatContainer.tsx:23-25 | `a:b` is the longest prefix of `a:rest` with one `:` when `rest` starts with `b` followed by the end or a `:` |
| ChatView.HoursMinutesOneColon | src/components/ChatContainer.tsx:23-25 | a time field `hh:mm` with one `:` is kept whole |
| ChatView.ParseTime | src/components/ChatContainer.tsx:19-28 | the shown time starts with the text before the first `T`, followed by a space |
| ChatView.ParseTimeAtFirstT | src/components/ChatContainer.tsx:21-27 | `parseTime` keeps the text before the first `T` and formats the text up to the next `T` |
| ChatView.UpToNextT | src/components/ChatContainer.tsx:21-23 | after `hh:mm:` the text up to the next `T` keeps those fields |
| ChatView.HoursMinutesOf | src/components/ChatContainer.tsx:23-25 | the first two `:` fields of `hh:mm:…` are `hh` and `mm` |
| ChatView.ParseTimeOfTimestamp | src/components/ChatContainer.tsx:19-28 | an ISO timestamp `dateThh:mm:rest` is shown as `date hh:mm`, the seconds, fraction and zone dropped |
| ChatView.ParseTimeWithoutMinutes | src/components/ChatContainer.tsx:23-25 | a time without `:` after the `T` is shown ending in ":undefined" |
| ChatView.ParseTimeWithoutSeconds | src/components/ChatContainer.tsx:19-28 | a timestamp `dateThh:mm` is shown as `date hh:mm`, with anything after the minutes (a zone) kept |
| ChatView.ParseTimeKeepsZoneExample | src/components/ChatContainer.tsx:19-28 | "2024-01-01T10:00Z" is shown as "2024-01-01 10:00Z" |
| ChatView.ParseTimeExample | src/components/ChatContainer.tsx:19-28 | "2024-01-01T10:00:00Z" is shown as "2024-01-01 10:00" |
| ChatView.AvatarOr | src/components/ChatContainer.tsx:76 | `pic \|\| '/avatar.png'`: the picture, or the default when it is empty; never empty |
| ChatView.Shown | src/components/ChatContainer.tsx:89-95 | an image or text part is rendered exactly when it is non-empty |
| ChatView.RenderMessage | src/components/ChatContainer.tsx:69-95 | a bubble sits at the end exactly when the signed-in user sent it; its avatar is the sender side's picture or the default, never empty; its time is `parseTime(createdAt)`; its image and text parts are the message's, each shown only when non-empty |
| ChatView.RenderThread | src/components/ChatContainer.tsx:69 | one bubble per message, in order |
| ChatView.RenderPane | src/components/ChatContainer.tsx:50-101 | the skeleton exactly while the history is loading, otherwise the thread `RenderThread` gives for the messages |
| ChatView.SelectionEffect | src/components/ChatContainer.tsx:30-42 | without a selection nothing happens and no cleanup is returned; otherwise the history requested is the selected contact's, it replaces the history as `getMessages` does, and one handler capturing the selection is registered when the session has a socket |
| ChatView.SelectionCleanup | src/components/ChatContainer.tsx:40 | the cleanup removes every `newMessage` handler and leaves the connection and the presence handler as they were |
| Routes.ProtectedRoutes | src/components/auth/ProtectedRoutes.tsx:11-19 | the loader exactly while checking; then the nested routes exactly for a signed-in user, and a replacing redirect to `/login` otherwise |
| Routes.GuestRoutes | src/components/auth/GuestRoutes.tsx:10-18 | the loader exactly while checking; then the nested routes exactly for a visitor with no session, and a replacing redirect to `/` otherwise |
| Routes.GuardsComplement | src/components/auth/GuestRoutes.tsx:10-18 | the guards agree on the loader; after the check the guest pages show exactly when the protected ones redirect and the reverse |
| Scenarios.OpenConversation | src/components/ChatContainer.tsx:30-42 | after a successful session check and selecting a contact, that contact's history is requested; when it is one message, that message is shown and one handler listens |
| Scenarios.HistoryThenLiveMessage | src/store/useChatStore.ts:81-87 | a live message from the selected contact is appended after the fetched history; one from another sender is ignored |
| Scenarios.LiveMessageDuringSendIsLost | src/store/useChatStore.ts:58-67 | a live message delivered while a send is pending disappears when the send succeeds |
| Scenarios.LiveMessageAfterLogoutIsIgnored | src/store/useAuthStore.ts:65-75 | after logout the disconnected handle delivers nothing and nobody is signed in |
| Scenarios.StaleSocketAfterSecondCheck | src/store/useAuthStore.ts:110-125 | after two successful session checks and a logout, the first handle is still live; a presence event on it replaces the presence list with nobody signed in, while `Consistent` still holds |
| Scenarios.FailedCheckAndDoubleLogout | src/store/useAuthStore.ts:36-75 | a failed first session check leaves nobody signed in and no live connection; logging out twice ends where logging out once does |

## Left out

- HTTP: URLs, headers, credentials and the axios instance are not modelled.
  Each call is the `Response` it produced. `response.data?.data` being
  `undefined` (a success without a payload) is not modelled: `Ok` always
  carries a payload.
- Error messages: the AxiosError versus other-error distinction, and the toast
  text shown for it, are not modelled. A failure carries one reason string.
- Toasts, navigation after sign-up, JSX markup, the skeleton and header
  components, and `scrollIntoView`: these are presentation only.
- The socket transport, reconnection and the server side are not modelled.
  Events are delivered only by explicit calls.
- `FileReader` is not modelled. Its data URL is given as part of the picked
  file, and the asynchronous `onload` is taken to run at once.
- `fileInputRef` and `showPassword`: pure DOM and view state.
- The `appName` field is kept as a constant. The navigation bar that shows it
  (src/components/Navbar.tsx:8, :54) is presentation and is not modelled.
- The conversation store's unused `socket: null` initial field (src/store/useChatStore.ts:26) is not modelled.
- Interleavings in general: `Start…` and `Finish…` can be composed in any
  order, but only the scenarios above compose them with a concurrent event.
  The race between overlapping history fetches for different contacts is not
  stated as a lemma.
- Chat.ChatStore.SendMessage: its contract assumes no other update lands
  between the request and its answer. `FinishSendMessage` states the real
  behaviour, and `Scenarios.LiveMessageDuringSendIsLost` shows what breaks.
- ChatView.SelectionEffect: the `getMessages` promise is not awaited, so a
  failure is an unhandled rejection in the page. The model does not track
  unhandled rejections. The `() => scrollToBottom()` statement in the effect
  creates a function and never calls it, so it has no effect.
- ChatView.ParseTime: it requires a `T` in the input. Without one, the source
  throws while calling `split` on `undefined`.
