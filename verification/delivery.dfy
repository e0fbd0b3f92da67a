/** Splitting the model's reply into SMS-sized chunks and sending them
    in order (`respond_to_user`). */
module Delivery {
  import opened Wrappers

  /** MAX_CHARACTERS_TWILIO: the longest body one outbound message carries. */
  const MaxCharactersTwilio: nat := 1600

  function Min(a: int, b: int): int { if a <= b then a else b }

  /** `len(range(0, n, MAX_CHARACTERS_TWILIO))`. */
  function ChunkCount(n: nat): (count: nat)
    ensures n <= count * MaxCharactersTwilio
    ensures count == 0 || (count - 1) * MaxCharactersTwilio < n
  {
    (n + MaxCharactersTwilio - 1) / MaxCharactersTwilio
  }

  lemma ChunkStartInRange(n: nat, i: nat)
    requires i < ChunkCount(n)
    ensures i * MaxCharactersTwilio < n
  {
  }

  /** The list comprehension
      `[text[i : i + MAX_CHARACTERS_TWILIO] for i in range(0, len(text), MAX_CHARACTERS_TWILIO)]`,
      with Python's clamping of the slice end. */
  function Chunks(text: string): seq<string>
  {
    seq(ChunkCount(|text|), i requires 0 <= i < ChunkCount(|text|) =>
      ChunkStartInRange(|text|, i);
      text[i * MaxCharactersTwilio .. Min((i + 1) * MaxCharactersTwilio, |text|)])
  }

  /** The concatenation of a list of strings, in order. */
  function Flatten(parts: seq<string>): string
  {
    if |parts| == 0 then "" else parts[0] + Flatten(parts[1..])
  }

  /** One chunk is cut off the front at a time. */
  lemma ChunksUnfold(text: string)
    ensures |text| == 0 ==> Chunks(text) == []
    ensures 0 < |text| <= MaxCharactersTwilio ==> Chunks(text) == [text]
    ensures |text| > MaxCharactersTwilio ==>
      Chunks(text) == [text[..MaxCharactersTwilio]] + Chunks(text[MaxCharactersTwilio..])
  {
    var w := MaxCharactersTwilio;
    if |text| > w {
      var rest := text[w..];
      var cs, rs := Chunks(text), Chunks(rest);
      assert ChunkCount(|text|) == ChunkCount(|rest|) + 1;
      forall i | 0 <= i < |rs| ensures cs[i + 1] == rs[i] {
        ChunkStartInRange(|rest|, i);
        assert (i + 1) * w == i * w + w;
        assert (i + 2) * w == (i + 1) * w + w;
        var lo, hi := i * w, Min((i + 1) * w, |rest|);
        assert cs[i + 1] == text[lo + w .. hi + w];
        assert rs[i] == rest[lo .. hi];
        assert rest[lo .. hi] == text[lo + w .. hi + w];
      }
      assert cs == [text[..w]] + rs;
    } else if |text| > 0 {
      assert ChunkCount(|text|) == 1;
      assert Chunks(text)[0] == text;
    }
  }

  /** The chunks concatenate back to the reply. */
  lemma {:induction false} ChunksRoundTrip(text: string)
    ensures Flatten(Chunks(text)) == text
    decreases |text|
  {
    ChunksUnfold(text);
    if |text| > MaxCharactersTwilio {
      var rest := text[MaxCharactersTwilio..];
      ChunksRoundTrip(rest);
      assert Chunks(text)[1..] == Chunks(rest);
      assert text == text[..MaxCharactersTwilio] + rest;
    } else if |text| > 0 {
      assert Flatten([text]) == text + Flatten([]);
    }
  }

  /** Every chunk is non-empty and at most MAX_CHARACTERS_TWILIO long, all
      but the last are exactly that long, and their number is the ceiling
      of the reply's length over MAX_CHARACTERS_TWILIO. */
  lemma ChunksShape(text: string)
    ensures (|Chunks(text)| - 1) * MaxCharactersTwilio < |text| <= |Chunks(text)| * MaxCharactersTwilio
    ensures forall i :: 0 <= i < |Chunks(text)| ==> 0 < |Chunks(text)[i]| <= MaxCharactersTwilio
    ensures forall i :: 0 <= i < |Chunks(text)| - 1 ==> |Chunks(text)[i]| == MaxCharactersTwilio
  {
    var cs := Chunks(text);
    forall i | 0 <= i < |cs|
      ensures 0 < |cs[i]| <= MaxCharactersTwilio
      ensures i < |cs| - 1 ==> |cs[i]| == MaxCharactersTwilio
    {
      ChunkStartInRange(|text|, i);
      if i < |cs| - 1 {
        ChunkStartInRange(|text|, i + 1);
      }
    }
  }

  /** A reply of 3500 characters goes out as 1600, 1600 and 300 characters. */
  lemma ThirtyFiveHundredCharacters(text: string)
    requires |text| == 3500
    ensures |Chunks(text)| == 3
    ensures |Chunks(text)[0]| == 1600 && |Chunks(text)[1]| == 1600 && |Chunks(text)[2]| == 300
  {
    ChunksShape(text);
    ChunksRoundTrip(text);
    var cs := Chunks(text);
    assert cs == [cs[0], cs[1], cs[2]];
    assert Flatten(cs) == cs[0] + (cs[1] + (cs[2] + Flatten([])));
  }

  /** An empty reply produces no chunk at all. */
  lemma EmptyReplyHasNoChunks()
    ensures Chunks("") == []
  {
    ChunksUnfold("");
  }

  // ----- Sending -----

  /** A message id as the telephony provider returns it. */
  type Sid = string

  /** One outbound message: its body, the sending number and the recipient. */
  datatype Outbound = Outbound(body: string, sender: string, recipient: string)

  /** The outbound messages for the chunks, in order, from `sender` to `recipient`. */
  function Outbox(chunks: seq<string>, sender: string, recipient: string): (outbox: seq<Outbound>)
    ensures Bodies(outbox) == chunks
    ensures forall m :: m in outbox ==> m.sender == sender && m.recipient == recipient
  {
    seq(|chunks|, i requires 0 <= i < |chunks| => Outbound(chunks[i], sender, recipient))
  }

  /** The bodies of a run of outbound messages. */
  function Bodies(outbox: seq<Outbound>): (bodies: seq<string>)
    ensures |bodies| == |outbox|
    ensures forall i :: 0 <= i < |outbox| ==> bodies[i] == outbox[i].body
  {
    seq(|outbox|, i requires 0 <= i < |outbox| => outbox[i].body)
  }

  /** What the variable `message` holds during the delivery loop: the
      inbound body it is bound to as `respond_to_user`'s first parameter,
      until the first `messages.create` rebinds it to a sent message. */
  datatype Binding = InboundBody(text: string) | SentMessage(sid: Sid)

  /** What `return message.sid` gives after the delivery loop: the id of
      the last message sent, or AttributeError when the loop ran zero
      times and `message` is still the inbound body, a string without a
      `sid` attribute. */
  function LastSid(chunks: seq<string>, sender: string, recipient: string,
                   send: (string, string, string) -> Sid): (sid: Result<Sid, PyError>)
    ensures sid.Failure? <==> |chunks| == 0
    ensures sid.Failure? ==> sid.error == AttributeError
    ensures sid.Success? ==> sid.value == send(chunks[|chunks| - 1], sender, recipient)
  {
    if |chunks| == 0 then Failure(AttributeError)
    else Success(send(chunks[|chunks| - 1], sender, recipient))
  }

  /** The delivery loop: `message` starts as the inbound body; one
      `messages.create` per chunk, in order, each rebinding `message`;
      the result is `message.sid`. */
  method SendChunks(body: string, chunks: seq<string>, sender: string, recipient: string,
                    send: (string, string, string) -> Sid)
    returns (outbox: seq<Outbound>, sid: Result<Sid, PyError>)
    ensures outbox == Outbox(chunks, sender, recipient)
    ensures sid == LastSid(chunks, sender, recipient, send)
  {
    outbox := [];
    var message: Binding := InboundBody(body);
    for i := 0 to |chunks|
      invariant outbox == Outbox(chunks[..i], sender, recipient)
      invariant i == 0 ==> message == InboundBody(body)
      invariant i > 0 ==> message == SentMessage(send(chunks[i - 1], sender, recipient))
    {
      outbox := outbox + [Outbound(chunks[i], sender, recipient)];
      message := SentMessage(send(chunks[i], sender, recipient));
    }
    assert chunks[..|chunks|] == chunks;
    match message {
      case InboundBody(_) => sid := Failure(AttributeError);
      case SentMessage(id) => sid := Success(id);
    }
  }

  /** The bodies sent concatenate back to the reply, each one non-empty and
      within the provider's limit; an empty reply sends nothing and ends in
      AttributeError. */
  lemma DeliveredReply(reply: string, sender: string, recipient: string,
                       send: (string, string, string) -> Sid)
    ensures Flatten(Bodies(Outbox(Chunks(reply), sender, recipient))) == reply
    ensures forall m :: m in Outbox(Chunks(reply), sender, recipient) ==>
      0 < |m.body| <= MaxCharactersTwilio && m.sender == sender && m.recipient == recipient
    ensures LastSid(Chunks(reply), sender, recipient, send).Failure? <==> reply == ""
    ensures reply == "" ==> Outbox(Chunks(reply), sender, recipient) == []
  {
    var cs := Chunks(reply);
    assert Bodies(Outbox(cs, sender, recipient)) == cs;
    ChunksRoundTrip(reply);
    ChunksShape(reply);
    if reply != "" {
      assert |cs| > 0;
    } else {
      EmptyReplyHasNoChunks();
    }
  }
}
