/** The message composer: its text and image-preview state, the image
    picker's type check, and the send handler with its guard. Reading the
    picked file into a data URL is the browser's `FileReader`; the model
    takes the URL it would produce as part of the picked file. */
module Composer {
  import opened Domain
  import opened JsText
  import opened Chat

  /** A file chosen in the picker: its MIME type and the data URL the
      reader yields for it. */
  datatype PickedFile = PickedFile(mimeType: string, dataUrl: string)

  /** JavaScript truthiness of the preview: its two falsy values are null
      and "". */
  predicate HasPreview(preview: Option<string>): (truthy: bool)
    ensures !truthy <==> preview == None || preview == Some("")
  {
    preview.Some? && preview.value != ""
  }

  /** The guard of `handleSendMessage`, `!text.trim() && !imagePreview`: it
      rejects exactly when the text is all whitespace (or empty) and there
      is no preview; a single visible character, or an image alone, is
      enough to send. */
  predicate SendGuardRejects(text: string, preview: Option<string>): (rejects: bool)
    ensures rejects <==>
      (forall i :: 0 <= i < |text| ==> IsJsWhitespace(text[i])) && !HasPreview(preview)
  {
    TrimEmptyIffBlank(text);
    Trim(text) == "" && !HasPreview(preview)
  }

  /** What submitting the composer led to: nothing, or one send request
      and how it settled. */
  datatype SendOutcome = Skipped | Attempted(request: Posted, result: Settled)

  class MessageInput {
    var text: string
    var imagePreview: Option<string>

    /** The composer as it mounts: no text, no preview. */
    constructor ()
      ensures text == "" && imagePreview == None
    {
      text := "";
      imagePreview := None;
    }

    /** The text input's change handler. */
    method SetText(value: string)
      modifies this
      ensures text == value && imagePreview == old(imagePreview)
    {
      text := value;
    }

    /** `handleImageChange`: no file, or a file whose type does not start
        with `image/`, leaves the preview as it was; an image becomes the
        preview. */
    method HandleImageChange(file: Option<PickedFile>) returns (accepted: bool)
      modifies this
      ensures accepted == (file.Some? && StartsWith(file.value.mimeType, "image/"))
      ensures imagePreview == (if accepted then Some(file.value.dataUrl) else old(imagePreview))
      ensures text == old(text)
    {
      accepted := false;
      if file.None? {
        return;
      }
      if !StartsWith(file.value.mimeType, "image/") {
        return;
      }
      imagePreview := Some(file.value.dataUrl);
      accepted := true;
    }

    /** `removeImage`: drops the preview. */
    method RemoveImage()
      modifies this
      ensures imagePreview == None && text == old(text)
    {
      imagePreview := None;
    }

    /** The send button's `disabled` attribute: set exactly when the send
        handler's guard would return early. */
    function SubmitDisabled(): (disabled: bool)
      reads this
      ensures disabled <==> SendGuardRejects(text, imagePreview)
    {
      Trim(text) == "" && !HasPreview(imagePreview)
    }

    /** The part of `handleSendMessage` after its guard: `draft` is sent to
        the selected contact; a success clears the composer, a failure is
        caught and leaves it as it was. */
    method SendDraft(chat: ChatStore, draft: Draft, res: Response<Message>) returns (outcome: SendOutcome)
      modifies this, chat
      ensures outcome == Attempted(Posted(RecipientId(old(chat.selectedUser)), draft), Propagate(res))
      ensures chat.MessageSent(res)
      ensures text == (if res.Ok? then "" else old(text))
      ensures imagePreview == (if res.Ok? then None else old(imagePreview))
    {
      var st, request := chat.SendMessage(draft, res);
      if st.Resolved? {
        text := "";
        imagePreview := None;
      }
      outcome := Attempted(request, st);
    }

    /** `handleSendMessage`: when the guard rejects, nothing is sent and
        nothing changes. Otherwise the trimmed text and the current preview
        are sent to the selected contact; a success clears the composer, a
        failure is caught and leaves the composer as it was. */
    method HandleSendMessage(chat: ChatStore, res: Response<Message>) returns (outcome: SendOutcome)
      modifies this, chat
      ensures SendGuardRejects(old(text), old(imagePreview)) ==>
        outcome == Skipped && text == old(text) && imagePreview == old(imagePreview) && unchanged(chat)
      ensures !SendGuardRejects(old(text), old(imagePreview)) ==>
        && outcome == Attempted(
             Posted(RecipientId(old(chat.selectedUser)), Draft(Trim(old(text)), old(imagePreview))),
             Propagate(res))
        && chat.MessageSent(res)
      ensures !SendGuardRejects(old(text), old(imagePreview)) && res.Ok? ==>
        text == "" && imagePreview == None
      ensures res.Err? ==> text == old(text) && imagePreview == old(imagePreview)
    {
      if SendGuardRejects(text, imagePreview) {
        return Skipped;
      }
      outcome := SendDraft(chat, Draft(Trim(text), imagePreview), res);
    }
  }
}
