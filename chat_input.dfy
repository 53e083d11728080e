/** The chat composer: a text box and an optional attached image. Sending
    trims the text, refuses an empty message without an image, and clears
    both afterwards; Enter without Shift sends. Reading the picked file is
    an explicit step that receives the file's data URL. */
module ChatInput {
  import opened Base
  import opened Text

  /** `hasContent`: non-blank text or an image. */
  predicate HasContent(text: string, image: Option<string>) {
    |Trim(text)| > 0 || Truthy(image)
  }

  /** What a send hands to `onSend`: nothing without content; otherwise the
      trimmed text, or "(image)" for an image alone, with the image. */
  function Outgoing(text: string, image: Option<string>): (r: Option<(string, Option<string>)>)
    ensures r.None? <==> !HasContent(text, image)
    ensures r.Some? ==> r.value.0 != "" && !IsJsSpace(r.value.0[0]) && !IsJsSpace(r.value.0[|r.value.0| - 1])
    ensures r.Some? && !IsBlank(text) ==> r.value.0 == Trim(text)
    ensures r.Some? && IsBlank(text) ==> r.value.0 == "(image)" && r.value.1 == image
    ensures r.Some? ==> r.value.1 == if Truthy(image) then image else None
  {
    TrimEmptyIffBlank(text);
    if !HasContent(text, image) then None
    else Some((if Trim(text) != "" then Trim(text) else "(image)", if Truthy(image) then image else None))
  }

  /** The send button is disabled while the chat is busy or there is nothing
      to send. */
  predicate SendDisabled(disabled: bool, text: string, image: Option<string>) {
    disabled || !HasContent(text, image)
  }

  /** An enabled send button always sends something, and a disabled one
      with idle chat has nothing to send. */
  lemma EnabledButtonSends(disabled: bool, text: string, image: Option<string>)
    ensures !SendDisabled(disabled, text, image) ==> Outgoing(text, image).Some?
    ensures SendDisabled(false, text, image) ==> Outgoing(text, image).None?
  {
  }

  /** Trimming the text first changes nothing: sending is stable under
      the trim it applies itself. */
  lemma OutgoingOfTrimmed(text: string, image: Option<string>)
    ensures Outgoing(Trim(text), image) == Outgoing(text, image)
  {
    TrimIdempotent(text);
  }

  class ChatBox {
    var text: string
    var imagePreview: Option<string>

    constructor ()
      ensures text == "" && imagePreview == None
    {
      text, imagePreview := "", None;
    }

    /** Typing replaces the text. */
    method SetText(t: string)
      modifies this
      ensures text == t && imagePreview == old(imagePreview)
    {
      text := t;
    }

    /** The file reader's result becomes the preview. */
    method ImageLoaded(dataUrl: string)
      modifies this
      ensures imagePreview == Some(dataUrl) && text == old(text)
    {
      imagePreview := Some(dataUrl);
    }

    /** The preview's close button. */
    method ClearImage()
      modifies this
      ensures imagePreview == None && text == old(text)
    {
      imagePreview := None;
    }

    /** `handleSend`: nothing happens without content; otherwise the message
        goes out and both the text and the image are cleared. */
    method HandleSend() returns (sent: Option<(string, Option<string>)>)
      modifies this
      ensures sent == Outgoing(old(text), old(imagePreview))
      ensures sent.None? ==> text == old(text) && imagePreview == old(imagePreview)
      ensures sent.Some? ==> text == "" && imagePreview == None
    {
      var trimmed := Trim(text);
      if trimmed == "" && !Truthy(imagePreview) {
        TrimEmptyIffBlank(text);
        return None;
      }
      sent := Some((if trimmed != "" then trimmed else "(image)", if Truthy(imagePreview) then imagePreview else None));
      text := "";
      imagePreview := None;
    }

    /** `handleKeyDown`: Enter without Shift sends; any other key, and
        Shift+Enter, only edits. */
    method HandleKeyDown(key: string, shift: bool) returns (sent: Option<(string, Option<string>)>)
      modifies this
      ensures key == "Enter" && !shift ==> sent == Outgoing(old(text), old(imagePreview))
      ensures !(key == "Enter" && !shift) ==> sent == None && text == old(text) && imagePreview == old(imagePreview)
      ensures sent.Some? ==> text == "" && imagePreview == None
      ensures sent.None? ==> text == old(text) && imagePreview == old(imagePreview)
    {
      if key == "Enter" && !shift {
        sent := HandleSend();
      } else {
        sent := None;
      }
    }
  }
}
