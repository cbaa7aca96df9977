/** The records the client exchanges with its backend, and the shape of a
    backend call's outcome. */
module Domain {

  /** An identity record as the backend returns it. */
  datatype User = User(
    id: string,
    email: string,
    profilePic: string,
    firstName: string,
    lastName: string,
    createdAt: string)

  /** A direct message; `createdAt` is an ISO-8601 timestamp string. */
  datatype Message = Message(
    id: string,
    image: string,
    text: string,
    senderId: string,
    receiverId: string,
    createdAt: string)

  /** A nullable value (`T | null` in the source). */
  datatype Option<+T> = None | Some(value: T)

  /** What the backend answered to one HTTP call: the `data.data` payload, or
      a rejection carrying the error the caller sees. */
  datatype Response<+T> = Ok(payload: T) | Err(reason: string)

  /** How a store operation's promise settles. */
  datatype Settled = Resolved | Rejected(reason: string)

  /** A store operation that re-throws whatever the backend call threw: it
      resolves exactly when the call succeeded and otherwise rejects with the
      very same error. */
  function Propagate<T>(res: Response<T>): (st: Settled)
    ensures st.Resolved? <==> res.Ok?
    ensures st.Rejected? ==> st.reason == res.reason
  {
    match res
    case Ok(_) => Resolved
    case Err(e) => Rejected(e)
  }

  /** The body the composer posts: trimmed text and the image preview (a
      data URL, or null). */
  datatype Draft = Draft(text: string, image: Option<string>)

  /** A send request: the contact id in the request path (the text
      "undefined" when no contact is selected) and the posted body. */
  datatype Posted = Posted(recipientId: string, body: Draft)

  /** The sign-up form's fields, posted as the body of the create-account
      call. */
  datatype SignUpFormData = SignUpFormData(
    firstName: string,
    lastName: string,
    email: string,
    password: string)

  /** The login form's fields, posted as the body of the login call. */
  datatype LoginFormData = LoginFormData(email: string, password: string)
}
