/** One pass of `respond_to_user`: classify the inbound message, fetch
    the user's memory, pack the relevant history, choose the prompt, ask
    the model, record the conversation to save, and send the reply in
    chunks. */
module Pipeline {
  import opened Wrappers
  import opened Records
  import opened PyStr
  import opened Inbound
  import opened History
  import opened Delivery
  import opened Sessions

  /** The webhook form fields the pipeline reads. */
  datatype InboundMessage = InboundMessage(
    body: string,
    mediaUrl: Option<string>,
    mediaContentType: Option<string>,
    from: string,
    to: string)

  /** The collaborators the pipeline calls, as functions of their inputs. */
  datatype Services = Services(
    transcribe: (string, Uuid) -> string,                 // transcribe_audio_message(url, uuid, logger)
    search: (string, Uuid) -> seq<Conversation>,                  // embeddings_manager.search, ranked best-first
    template: (string, string) -> string,                 // previous_conversations_prompt.format(query, history)
    model: (string, seq<ChatMessage>) -> string,          // the chat chain, given the prompt and the memory
    send: (string, string, string) -> Sid)                // messages.create(body, from_, to)

  /** The conversation handed to `save_conversation`. */
  datatype SavedConversation = SavedConversation(userMessage: string, botMessage: string, messageType: MessageType)

  /** Everything one pass produces. */
  datatype Response = Response(
    kind: MessageKind,
    userMessage: string,
    history: string,
    prompt: string,
    reply: string,
    saved: SavedConversation,
    remembered: seq<ChatMessage>,
    outbox: seq<Outbound>,
    sid: Result<Sid, PyError>)

  /** The pass as a function of the user's memory before the message. */
  function Respond(memory: seq<ChatMessage>, uuid: Uuid, msg: InboundMessage, svc: Services): Response
  {
    var kind := Classify(msg.mediaUrl, msg.mediaContentType);
    var userMessage := if kind.AudioMessage? then svc.transcribe(kind.audioUrl, uuid) else msg.body;
    var history := Packed(svc.search(userMessage, uuid));
    var prompt := Prompt(userMessage, history, svc.template);
    var reply := svc.model(prompt, memory);
    var chunks := Chunks(reply);
    Response(kind, userMessage, history, prompt, reply,
             SavedConversation(userMessage, reply, MessageTypeOf(kind)),
             WithExchange(memory, prompt, reply),
             Outbox(chunks, msg.to, msg.from),
             LastSid(chunks, msg.to, msg.from, svc.send))
  }

  /** `respond_to_user` against the session store: the defaultdict lookup
      creates an empty memory for a user seen for the first time, and the
      chain then saves the exchange into that memory. */
  method RespondToUser(store: SessionStore, uuid: Uuid, msg: InboundMessage, svc: Services)
    returns (r: Response)
    modifies store
    ensures r == Respond(Lookup(old(store.sessions), uuid), uuid, msg, svc)
    ensures store.sessions == old(store.sessions)[uuid := r.remembered]
  {
    var userMessage := msg.body;
    var messageType := Text;
    var kind := Classify(msg.mediaUrl, msg.mediaContentType);
    if kind.AudioMessage? {
      messageType := VoiceMessage;
      userMessage := svc.transcribe(kind.audioUrl, uuid);
    }
    var chatHistory := store.Get(uuid);
    var candidates := svc.search(userMessage, uuid);
    var history := PackHistory(candidates);
    var prompt := Prompt(userMessage, history, svc.template);
    var reply := svc.model(prompt, chatHistory);
    store.SaveContext(uuid, prompt, reply);
    OverwriteEntry(old(store.sessions), uuid, chatHistory, WithExchange(chatHistory, prompt, reply));
    assert messageType == MessageTypeOf(kind);
    var saved := SavedConversation(userMessage, reply, messageType);
    var chunks := Chunks(reply);
    var outbox, sid := SendChunks(msg.body, chunks, msg.to, msg.from, svc.send);
    r := Response(kind, userMessage, history, prompt, reply, saved,
                  WithExchange(chatHistory, prompt, reply), outbox, sid);
  }

  // ----- Properties of one pass -----

  /** The conversation saved is the raw (or transcribed) user message and
      the model's reply, never the formatted prompt; its type is
      "voice_message" exactly for an audio message. */
  lemma SavesRawMessage(memory: seq<ChatMessage>, uuid: Uuid, msg: InboundMessage, svc: Services)
    ensures var r := Respond(memory, uuid, msg, svc);
      && r.saved.userMessage == r.userMessage
      && r.saved.botMessage == r.reply
      && (r.saved.messageType == VoiceMessage <==>
            msg.mediaUrl.Some? && msg.mediaContentType.Some? && StartsWith(msg.mediaContentType.value, AudioPrefix))
      && (r.saved.messageType == Text ==> r.userMessage == msg.body)
      && (r.saved.messageType == VoiceMessage ==>
            r.userMessage == svc.transcribe(msg.mediaUrl.value, uuid))
  {
  }

  /** The memory keeps what it held and gains the prompt the model was
      asked, not the raw message, followed by the reply: with a packed
      history that prompt is the template output. */
  lemma MemoryRecordsPrompt(memory: seq<ChatMessage>, uuid: Uuid, msg: InboundMessage, svc: Services)
    ensures var r := Respond(memory, uuid, msg, svc);
      && r.remembered[..|memory|] == memory
      && |r.remembered| == |memory| + 2
      && r.remembered[|memory| + 1] == AiMessage(r.reply)
      && (r.history == "" ==> r.remembered[|memory|] == HumanMessage(r.userMessage))
      && (r.history != "" ==> r.remembered[|memory|] == HumanMessage(svc.template(r.userMessage, r.history)))
  {
  }

  /** With nothing packed (no candidate, or the best-ranked one alone over
      the budget) the model is asked the user message verbatim. */
  lemma RawPromptWithoutHistory(memory: seq<ChatMessage>, uuid: Uuid, msg: InboundMessage, svc: Services)
    ensures var r := Respond(memory, uuid, msg, svc);
      var candidates := svc.search(r.userMessage, uuid);
      (|candidates| == 0 || |Frame(candidates[0])| > MaxCharactersPrompt) ==>
        r.history == "" && r.prompt == r.userMessage && r.reply == svc.model(r.userMessage, memory)
  {
    var r := Respond(memory, uuid, msg, svc);
    PackedEmptyIff(svc.search(r.userMessage, uuid));
  }

  /** With something packed, the model is asked the template applied to
      the raw message and the packed history, which is the framings of a
      ranked prefix of the candidates, within the budget. */
  lemma TemplatePromptWithHistory(memory: seq<ChatMessage>, uuid: Uuid, msg: InboundMessage, svc: Services)
    ensures var r := Respond(memory, uuid, msg, svc);
      var candidates := svc.search(r.userMessage, uuid);
      && |r.history| <= MaxCharactersPrompt
      && r.history == Framed(candidates[..PackedCount(candidates)])
      && (r.history != "" ==> r.prompt == svc.template(r.userMessage, r.history))
  {
    var r := Respond(memory, uuid, msg, svc);
    PackedIsFramedPrefix(svc.search(r.userMessage, uuid));
  }

  /** The messages sent carry the reply, in order, each between 1 and 1600
      characters, from the number written to (`To`) to the sender (`From`);
      an empty reply sends nothing and ends in AttributeError, because
      `message` is then still the inbound body. */
  lemma SendsWholeReply(memory: seq<ChatMessage>, uuid: Uuid, msg: InboundMessage, svc: Services)
    ensures var r := Respond(memory, uuid, msg, svc);
      && Flatten(Bodies(r.outbox)) == r.reply
      && (forall m :: m in r.outbox ==>
            0 < |m.body| <= MaxCharactersTwilio && m.sender == msg.to && m.recipient == msg.from)
      && (r.sid.Failure? <==> r.reply == "")
      && (r.sid.Failure? ==> r.outbox == [] && r.sid.error == AttributeError)
  {
    var r := Respond(memory, uuid, msg, svc);
    DeliveredReply(r.reply, msg.to, msg.from, svc.send);
    if r.reply == "" {
      EmptyReplyHasNoChunks();
    }
  }
}
