/**
 * The chat of the photo editor (js/editor.js): the user types an instruction, the server
 * answers with a text and an edited image, and every answer with an image is shown in a
 * before/after comparison slider against the project's original photo when one is known.
 */
module Editor {
  import opened Wrappers
  import opened JsText
  import opened ComparisonSlider

  /** Who wrote a chat message. */
  datatype Role = User | Ai

  /** The picture part of a message: none, a plain image, or a comparison of an edit with the original. */
  datatype Picture = NoPicture | Plain(url: string) | Comparison(after: string, before: string)

  /** A rendered message: its role, its picture and the text paragraph, if it has one. */
  datatype Message = Message(role: Role, picture: Picture, paragraph: Option<string>)

  /** JavaScript truthiness of a value that is a string, `null` or `undefined`. */
  predicate Truthy(o: Option<string>) {
    o.Some? && o.value != ""
  }

  /**
   * `renderMessage`: the comparison slider for an answer with an image while an original is
   * known, a plain image for any other image, and a paragraph for a truthy text.
   */
  function RenderMessage(role: Role, text: Option<string>, imageUrl: Option<string>, original: Option<string>): (m: Message)
    ensures m.role == role
    ensures m.picture.Comparison? <==> role == Ai && Truthy(imageUrl) && Truthy(original)
    ensures m.picture.Comparison? ==> m.picture == Comparison(imageUrl.value, original.value)
    ensures m.picture.Plain? <==> Truthy(imageUrl) && !(role == Ai && Truthy(original))
    ensures m.picture.Plain? ==> m.picture.url == imageUrl.value
    ensures m.paragraph.Some? <==> Truthy(text)
    ensures m.paragraph.Some? ==> m.paragraph == text
  {
    var picture :=
      if !Truthy(imageUrl) then NoPicture
      else if role == Ai && Truthy(original) then Comparison(imageUrl.value, original.value)
      else Plain(imageUrl.value);
    Message(role, picture, if Truthy(text) then text else None)
  }

  /** The number of messages that hold a comparison slider. */
  function Comparisons(ms: seq<Message>): (n: nat)
    ensures n <= |ms|
  {
    if |ms| == 0 then 0
    else Comparisons(ms[..|ms| - 1]) + (if ms[|ms| - 1].picture.Comparison? then 1 else 0)
  }

  /** The input handler: the send button is disabled exactly while the input is blank. */
  function SendDisabled(value: string): (disabled: bool)
    ensures disabled <==> IsBlank(value)
  {
    Trim(value) == ""
  }

  /** The text `sendMessage` sends: the trimmed input, or nothing when the input is blank. */
  function Outgoing(value: string): (m: Option<string>)
    ensures m.None? <==> IsBlank(value)
    ensures m.Some? ==> m.value == Trim(value) && m.value != ""
    ensures m.Some? ==> !IsWhiteSpace(m.value[0]) && !IsWhiteSpace(m.value[|m.value| - 1])
  {
    var message := Trim(value);
    if message == "" then None else Some(message)
  }

  /** What the edit request ends with: the server's text and image, or an error and its message. */
  datatype Reply = Answer(text: Option<string>, image: Option<string>) | Failure(message: string)

  /** The answer's message: the server's text and image, or the error's message after "Error: ". */
  function ReplyMessage(reply: Reply, original: Option<string>): (m: Message)
    ensures m.role == Ai
    ensures reply.Failure? ==> m == Message(Ai, NoPicture, Some("Error: " + reply.message))
    ensures reply.Answer? ==> m == RenderMessage(Ai, reply.text, reply.image, original)
  {
    match reply
    case Answer(text, image) => RenderMessage(Ai, text, image, original)
    case Failure(message) => RenderMessage(Ai, Some("Error: " + message), None, original)
  }

  /** A file chosen in one of the upload inputs: its MIME type and the object URL of its preview. */
  datatype UploadFile = UploadFile(mimeType: string, previewUrl: string)

  /**
   * `initSlider`: a slider for the message's comparison container, starting in the middle,
   * and none when the message has no such container.
   */
  method InitSlider(m: Message) returns (s: Slider?)
    ensures s == null <==> !m.picture.Comparison?
    ensures s != null ==> fresh(s) && s.Valid() && s.variant == ComparisonSlider.Editor && s.State() == INITIAL
  {
    if !m.picture.Comparison? {
      return null;
    }
    s := new Slider(ComparisonSlider.Editor);
  }

  /**
   * The editor's chat: the input text, whether the send button is disabled, the rendered
   * messages, the original photo the comparisons show, and one slider per comparison.
   */
  class Chat {
    var input: string
    var sendDisabled: bool
    var transcript: seq<Message>
    var original: Option<string>
    var sliders: seq<Slider>

    ghost predicate Valid()
      reads this
    {
      && |sliders| == Comparisons(transcript)
      && forall i :: 0 <= i < |sliders| ==> sliders[i].variant == ComparisonSlider.Editor
    }

    /** The page after loading a project without files: an empty chat and no original. */
    constructor ()
      ensures Valid()
      ensures input == "" && transcript == [] && original == None && sliders == []
    {
      input := "";
      sendDisabled := false;
      transcript := [];
      original := None;
      sliders := [];
    }

    /**
     * `renderMessage`: the message is appended; a message with a comparison container gets
     * a new slider.
     */
    method Append(role: Role, text: Option<string>, imageUrl: Option<string>)
      requires Valid()
      modifies this`transcript, this`sliders
      ensures Valid()
      ensures transcript == old(transcript) + [RenderMessage(role, text, imageUrl, original)]
      ensures (role == Ai && Truthy(imageUrl) && Truthy(original)) <==> |sliders| == |old(sliders)| + 1
      ensures |old(sliders)| <= |sliders| <= |old(sliders)| + 1 && sliders[..|old(sliders)|] == old(sliders)
      ensures |sliders| > |old(sliders)| ==> fresh(sliders[|sliders| - 1]) && sliders[|sliders| - 1].State() == INITIAL
    {
      var m := RenderMessage(role, text, imageUrl, original);
      transcript := transcript + [m];
      assert transcript[..|transcript| - 1] == old(transcript);
      if role == Ai && Truthy(imageUrl) && Truthy(original) {
        var s := InitSlider(m);
        sliders := sliders + [s];
      }
    }

    /** The `input` listener: the button follows whether the new text is blank. */
    method Input(value: string)
      modifies this`input, this`sendDisabled
      ensures input == value
      ensures sendDisabled <==> IsBlank(value)
    {
      input := value;
      sendDisabled := SendDisabled(value);
    }

    /**
     * `sendMessage` (the send button, or Enter without Shift), with the reply the request
     * ends with. A blank input changes nothing. Otherwise the trimmed text is shown as the
     * user's message, the input is cleared, the answer or the error is shown, and the
     * button is enabled again.
     */
    method Send(reply: Reply)
      requires Valid()
      modifies this`input, this`sendDisabled, this`transcript, this`sliders
      ensures Valid()
      ensures IsBlank(old(input)) ==>
        input == old(input) && sendDisabled == old(sendDisabled) && transcript == old(transcript) && sliders == old(sliders)
      ensures !IsBlank(old(input)) ==>
        && input == ""
        && !sendDisabled
        && transcript == old(transcript) + [Message(User, NoPicture, Outgoing(old(input))), ReplyMessage(reply, original)]
        && |old(sliders)| <= |sliders| <= |old(sliders)| + 1 && sliders[..|old(sliders)|] == old(sliders)
        && (|sliders| == |old(sliders)| + 1 <==> reply.Answer? && Truthy(reply.image) && Truthy(original))
        && (|sliders| > |old(sliders)| ==> fresh(sliders[|sliders| - 1]) && sliders[|sliders| - 1].State() == INITIAL)
    {
      var message := Outgoing(input);
      if message.None? {
        return;
      }
      Append(User, message, None);
      input := "";
      sendDisabled := true;
      match reply {
        case Answer(text, image) =>
          Append(Ai, text, image);
        case Failure(msg) =>
          Append(Ai, Some("Error: " + msg), None);
      }
      sendDisabled := false;
    }

    /**
     * `handleUpload` up to the request that stores the photo: anything but an image is
     * ignored; an image is shown as the user's message and becomes the original.
     */
    method Upload(file: Option<UploadFile>)
      requires Valid()
      modifies this`transcript, this`sliders, this`original
      ensures Valid()
      ensures (file.None? || !StartsWith(file.value.mimeType, "image/")) ==>
        transcript == old(transcript) && sliders == old(sliders) && original == old(original)
      ensures file.Some? && StartsWith(file.value.mimeType, "image/") ==>
        && transcript == old(transcript) + [RenderMessage(User, None, Some(file.value.previewUrl), old(original))]
        && sliders == old(sliders)
        && original == Some(file.value.previewUrl)
    {
      if file.None? || !StartsWith(file.value.mimeType, "image/") {
        return;
      }
      Append(User, None, Some(file.value.previewUrl));
      original := Some(file.value.previewUrl);
    }
  }

  /** A session: an upload, then an instruction whose answer is compared with the upload. */
  method Session() returns (m: Message)
    ensures m == Message(Ai, Comparison("/uploads/edit.png", "blob:photo"), Some("Done"))
  {
    var chat := new Chat();
    chat.Upload(Some(UploadFile("image/jpeg", "blob:photo")));
    chat.Input("sofa");
    assert !IsWhiteSpace(chat.input[0]);
    chat.Send(Answer(Some("Done"), Some("/uploads/edit.png")));
    m := chat.transcript[2];
  }
}
