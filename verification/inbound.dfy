/** Classification of an inbound webhook message (text or voice) and the
    phone number derived from the sender address of a new user. */
module Inbound {
  import opened Wrappers
  import opened PyStr

  /** The message type recorded with a saved conversation. */
  datatype MessageType = Text | VoiceMessage

  /** The string the source stores for each message type. */
  function TypeName(t: MessageType): string
  {
    match t
    case Text => "text"
    case VoiceMessage => "voice_message"
  }

  /** What the pipeline does with the message: use the body, or
      transcribe the audio found at `audioUrl`. */
  datatype MessageKind =
    | TextMessage
    | AudioMessage(audioUrl: string, audioType: string)

  const AudioPrefix: string := "audio/"

  /** A content type that starts with "audio/" splits on '/' into
      "audio" followed by the fields of the rest. */
  lemma AudioContentTypeFields(contentType: string)
    requires StartsWith(contentType, AudioPrefix)
    ensures Split(contentType, '/') == ["audio"] + Split(contentType[6..], '/')
  {
    assert contentType[..6] == "audio/";
    assert contentType[5] == '/';
    assert forall j :: 0 <= j < 5 ==> contentType[j] != '/';
    assert IndexOf(contentType, '/') == 5;
    assert contentType[..5] == "audio";
  }

  /** The audio check of `respond_to_user`: a voice message needs both
      media fields and a content type that starts with "audio/"; its audio
      type is the second '/'-separated field of the content type, which is
      the text after "audio/" up to the next '/'. */
  function Classify(mediaUrl: Option<string>, contentType: Option<string>): (kind: MessageKind)
    ensures kind.AudioMessage? <==>
      mediaUrl.Some? && contentType.Some? && StartsWith(contentType.value, AudioPrefix)
    ensures kind.AudioMessage? ==>
      && kind.audioUrl == mediaUrl.value
      && var rest := contentType.value[|AudioPrefix|..];
         kind.audioType == rest[..IndexOf(rest, '/')]
  {
    if mediaUrl.Some? && contentType.Some? && StartsWith(contentType.value, AudioPrefix) then
      AudioContentTypeFields(contentType.value);
      SecondField(contentType.value, '/');
      AudioMessage(mediaUrl.value, Split(contentType.value, '/')[1])
    else
      TextMessage
  }

  /** The type saved with the conversation: "voice_message" exactly for a
      transcribed audio message, "text" otherwise. */
  function MessageTypeOf(kind: MessageKind): (t: MessageType)
  {
    if kind.AudioMessage? then VoiceMessage else Text
  }

  /** The recorded type is "voice_message" exactly when both media fields
      are present and the content type starts with "audio/". */
  lemma VoiceMessageIff(mediaUrl: Option<string>, contentType: Option<string>)
    ensures TypeName(MessageTypeOf(Classify(mediaUrl, contentType))) == "voice_message" <==>
      mediaUrl.Some? && contentType.Some? && StartsWith(contentType.value, AudioPrefix)
    ensures TypeName(MessageTypeOf(Classify(mediaUrl, contentType))) == "text" <==>
      !(mediaUrl.Some? && contentType.Some? && StartsWith(contentType.value, AudioPrefix))
  {
    var kind := Classify(mediaUrl, contentType);
    if kind.AudioMessage? {
      assert TypeName(MessageTypeOf(kind)) != "text";
    } else {
      assert TypeName(MessageTypeOf(kind)) != "voice_message";
    }
  }

  /** `From.split(":")[1]` in `chat`, for a sender not yet known: fails
      with IndexError when the address has no ':', and otherwise is the
      text after the first ':' up to the next one. */
  function NewUserPhoneNumber(from: string): (phone: Result<string, PyError>)
    ensures phone.Failure? <==> ':' !in from
    ensures phone.Failure? ==> phone.error == IndexError
    ensures phone.Success? ==>
      var rest := from[IndexOf(from, ':') + 1..];
      phone.value == rest[..IndexOf(rest, ':')] && ':' !in phone.value
  {
    SecondField(from, ':');
    SplitFieldsAreSeparatorFree(from, ':');
    Field(from, ':', 1)
  }

  /** A sender address "channel:number" whose parts hold no ':' (such as
      "whatsapp:+1555") gives the number. */
  lemma {:induction false} ChannelAddressPhoneNumber(channel: string, number: string)
    requires ':' !in channel && ':' !in number
    ensures NewUserPhoneNumber(channel + ":" + number) == Success(number)
  {
    var from := channel + ":" + number;
    assert from[|channel|] == ':';
    assert forall j :: 0 <= j < |channel| ==> from[j] == channel[j];
    var i := IndexOf(from, ':');
    assert i == |channel|;
    var rest := from[i + 1..];
    assert rest == number;
    assert IndexOf(rest, ':') == |rest|;
    assert rest[..IndexOf(rest, ':')] == number;
    assert ':' in from;
    var phone := NewUserPhoneNumber(from);
    assert phone.Success? && phone.value == number;
  }

  /** A WhatsApp sender address. */
  lemma WhatsAppSenderPhoneNumber()
    ensures NewUserPhoneNumber("whatsapp:+1555") == Success("+1555")
  {
    assert "whatsapp:+1555" == "whatsapp" + ":" + "+1555";
    ChannelAddressPhoneNumber("whatsapp", "+1555");
  }
}
