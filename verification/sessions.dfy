/** The per-user conversation memories (`conversation_sessions`, a
    defaultdict from user uuid to a message list) and their
    reconstruction from the stored conversations at start-up
    (`initialize_conversation_sessions`). */
module Sessions {
  import opened Records

  /** The uuid of a user's profile, the key of the session map. */
  type Uuid = string

  /** One entry of a memory's message list. */
  datatype ChatMessage = HumanMessage(content: string) | AiMessage(content: string)


  /** A user together with the result of `Conversation.objects.filter(user=user)`,
      in the order the query returns it. */
  datatype UserRecord = UserRecord(uuid: Uuid, conversations: seq<Conversation>)

  /** The slice `[:10]` taken of each user's conversations. */
  const BootstrapLimit: nat := 10

  /** The session map: each uuid's message list. */
  type SessionMap = map<Uuid, seq<ChatMessage>>

  /** What the defaultdict yields for `uuid`: the stored list, or a fresh
      empty one. */
  function Lookup(sessions: SessionMap, uuid: Uuid): seq<ChatMessage>
  {
    if uuid in sessions then sessions[uuid] else []
  }

  /** `conversations[:10]`. */
  function Recent(conversations: seq<Conversation>): (recent: seq<Conversation>)
    ensures |recent| <= BootstrapLimit && |recent| <= |conversations|
    ensures recent == conversations[..|recent|]
    ensures |recent| < BootstrapLimit ==> recent == conversations
  {
    if |conversations| <= BootstrapLimit then conversations else conversations[..BootstrapLimit]
  }

  /** `conversations[::-1]`. */
  function Reversed(conversations: seq<Conversation>): (reversed: seq<Conversation>)
    ensures |reversed| == |conversations|
    ensures forall i :: 0 <= i < |conversations| ==>
      reversed[i] == conversations[|conversations| - 1 - i]
  {
    if |conversations| == 0 then []
    else Reversed(conversations[1..]) + [conversations[0]]
  }

  /** The messages a run of conversations adds: the user's message and
      then the bot's, conversation after conversation. */
  function Replay(conversations: seq<Conversation>): (messages: seq<ChatMessage>)
    ensures |messages| == 2 * |conversations|
    ensures forall i :: 0 <= i < |conversations| ==>
      && messages[2 * i] == HumanMessage(conversations[i].userMessage)
      && messages[2 * i + 1] == AiMessage(conversations[i].botMessage)
  {
    if |conversations| == 0 then []
    else
      var c := conversations[0];
      [HumanMessage(c.userMessage), AiMessage(c.botMessage)] + Replay(conversations[1..])
  }

  /** The inner loop continued from `sessions`: each conversation appends
      its two messages to the entry of `uuid`, creating it on first use. */
  function ReplayInto(sessions: SessionMap, uuid: Uuid, conversations: seq<Conversation>): SessionMap
    decreases |conversations|
  {
    if |conversations| == 0 then sessions
    else
      var c := conversations[0];
      var replayed := Lookup(sessions, uuid) + [HumanMessage(c.userMessage), AiMessage(c.botMessage)];
      ReplayInto(sessions[uuid := replayed], uuid, conversations[1..])
  }

  /** The conversations a user's memory is rebuilt from, in replay order. */
  function Restored(user: UserRecord): seq<Conversation>
  {
    Reversed(Recent(user.conversations))
  }

  /** The outer loop continued from `sessions`, user after user. */
  function BootstrapFrom(sessions: SessionMap, users: seq<UserRecord>): SessionMap
    decreases |users|
  {
    if |users| == 0 then sessions
    else BootstrapFrom(ReplayInto(sessions, users[0].uuid, Restored(users[0])), users[1..])
  }

  /** The session map `initialize_conversation_sessions` returns. */
  function Bootstrap(users: seq<UserRecord>): SessionMap
  {
    BootstrapFrom(map[], users)
  }

  /** A memory after one exchange is saved into it: the input as a user
      message, then the output as an AI message. */
  function WithExchange(memory: seq<ChatMessage>, input: string, output: string): (after: seq<ChatMessage>)
    ensures |after| == |memory| + 2
    ensures after[..|memory|] == memory
    ensures after[|memory|] == HumanMessage(input) && after[|memory| + 1] == AiMessage(output)
  {
    memory + [HumanMessage(input), AiMessage(output)]
  }

  // ----- The mutable store -----

  /** The defaultdict of conversation memories. */
  class SessionStore {
    var sessions: SessionMap

    constructor ()
      ensures sessions == map[]
    {
      sessions := map[];
    }

    /** `conversation_sessions[uuid]`: the existing memory, or a new empty
        one that is stored under `uuid` from then on. */
    method Get(uuid: Uuid) returns (memory: seq<ChatMessage>)
      modifies this
      ensures memory == Lookup(old(sessions), uuid)
      ensures uuid !in old(sessions) ==> memory == []
      ensures sessions == old(sessions)[uuid := memory]
    {
      if uuid !in sessions {
        sessions := sessions[uuid := []];
      }
      memory := sessions[uuid];
    }

    /** `conversation_sessions[uuid].chat_memory.add_user_message(content)`. */
    method AddUserMessage(uuid: Uuid, content: string)
      modifies this
      ensures sessions == old(sessions)[uuid := Lookup(old(sessions), uuid) + [HumanMessage(content)]]
    {
      var memory := Get(uuid);
      sessions := sessions[uuid := memory + [HumanMessage(content)]];
    }

    /** `conversation_sessions[uuid].chat_memory.add_ai_message(content)`. */
    method AddAiMessage(uuid: Uuid, content: string)
      modifies this
      ensures sessions == old(sessions)[uuid := Lookup(old(sessions), uuid) + [AiMessage(content)]]
    {
      var memory := Get(uuid);
      sessions := sessions[uuid := memory + [AiMessage(content)]];
    }

    /** `ConversationBufferMemory.save_context`, which a chain built with
        this memory calls after the model answers: the chain's input is
        added as a user message, then its output as an AI message. */
    method SaveContext(uuid: Uuid, input: string, output: string)
      modifies this
      ensures sessions == old(sessions)[uuid := WithExchange(Lookup(old(sessions), uuid), input, output)]
    {
      ghost var start := sessions;
      AddUserMessage(uuid, input);
      AddAiMessage(uuid, output);
      AddPair(start, uuid, Conversation(input, output));
    }

    /** The inner loop of the bootstrap: for each conversation, add its
        user message and then its bot message to the entry of `uuid`. */
    method ReplayConversations(uuid: Uuid, conversations: seq<Conversation>)
      modifies this
      ensures sessions == ReplayInto(old(sessions), uuid, conversations)
    {
      for j := 0 to |conversations|
        invariant ReplayInto(sessions, uuid, conversations[j..]) == ReplayInto(old(sessions), uuid, conversations)
      {
        var c := conversations[j];
        assert conversations[j..][1..] == conversations[j + 1..];
        ghost var start := sessions;
        AddUserMessage(uuid, c.userMessage);
        AddAiMessage(uuid, c.botMessage);
        AddPair(start, uuid, c);
      }
    }
  }

  /** Adding the user message and then the bot message is one update of
      the entry by the pair. */
  lemma AddPair(start: SessionMap, uuid: Uuid, c: Conversation)
    ensures var afterUser := start[uuid := Lookup(start, uuid) + [HumanMessage(c.userMessage)]];
      afterUser[uuid := Lookup(afterUser, uuid) + [AiMessage(c.botMessage)]] ==
      start[uuid := Lookup(start, uuid) + [HumanMessage(c.userMessage), AiMessage(c.botMessage)]]
  {
    assert Lookup(start, uuid) + [HumanMessage(c.userMessage)] + [AiMessage(c.botMessage)] ==
           Lookup(start, uuid) + [HumanMessage(c.userMessage), AiMessage(c.botMessage)];
  }

  /** `initialize_conversation_sessions`: for each user, its first ten
      conversations, reversed, replayed into a fresh defaultdict. */
  method InitializeConversationSessions(users: seq<UserRecord>) returns (store: SessionStore)
    ensures fresh(store)
    ensures store.sessions == Bootstrap(users)
  {
    store := new SessionStore();
    for i := 0 to |users|
      invariant BootstrapFrom(store.sessions, users[i..]) == Bootstrap(users)
    {
      var conversations := Reversed(Recent(users[i].conversations));
      store.ReplayConversations(users[i].uuid, conversations);
      assert users[i..][1..] == users[i + 1..];
    }
  }

  // ----- Properties of the reconstruction -----

  /** Replaying conversations for one uuid appends their messages to that
      uuid's entry and changes no other entry; with no conversations it
      does not even create the entry. */
  lemma {:induction false} ReplayIntoEffect(sessions: SessionMap, uuid: Uuid, conversations: seq<Conversation>)
    ensures ReplayInto(sessions, uuid, conversations) ==
      if |conversations| == 0 then sessions
      else sessions[uuid := Lookup(sessions, uuid) + Replay(conversations)]
    decreases |conversations|
  {
    if |conversations| > 0 {
      var c := conversations[0];
      var tail := conversations[1..];
      var pair := [HumanMessage(c.userMessage), AiMessage(c.botMessage)];
      var grown := Lookup(sessions, uuid) + pair;
      var next := sessions[uuid := grown];
      ReplayIntoEffect(next, uuid, tail);
      if |tail| == 0 {
        assert Replay(conversations) == pair;
      } else {
        ReplayAppend(Lookup(sessions, uuid), conversations);
        OverwriteEntry(sessions, uuid, grown, grown + Replay(tail));
      }
    }
  }

  lemma ReplayAppend(prefix: seq<ChatMessage>, conversations: seq<Conversation>)
    requires |conversations| > 0
    ensures prefix + [HumanMessage(conversations[0].userMessage), AiMessage(conversations[0].botMessage)]
            + Replay(conversations[1..]) == prefix + Replay(conversations)
  {
  }

  lemma OverwriteEntry(sessions: SessionMap, uuid: Uuid, first: seq<ChatMessage>, second: seq<ChatMessage>)
    ensures Lookup(sessions[uuid := first], uuid) == first
    ensures sessions[uuid := first][uuid := second] == sessions[uuid := second]
  {
  }

  /** Each user contributes at most ten conversations, two messages each. */
  lemma RestoredLength(user: UserRecord)
    ensures |Replay(Restored(user))| ==
      2 * (if |user.conversations| <= BootstrapLimit then |user.conversations| else BootstrapLimit)
  {
  }

  /** The memory replays the first ten conversations in the reverse of the query's order:
      message pair i is the conversation at position n - 1 - i of the
      query, where n is min(10, count). */
  lemma RestoredOrder(user: UserRecord, i: nat)
    requires i < |Restored(user)|
    ensures |Restored(user)| == |Recent(user.conversations)|
    ensures var n := |Recent(user.conversations)|;
      && Replay(Restored(user))[2 * i] == HumanMessage(user.conversations[n - 1 - i].userMessage)
      && Replay(Restored(user))[2 * i + 1] == AiMessage(user.conversations[n - 1 - i].botMessage)
  {
  }

  predicate DistinctUuids(users: seq<UserRecord>)
  {
    forall i, j :: 0 <= i < j < |users| ==> users[i].uuid != users[j].uuid
  }

  function UuidsOf(users: seq<UserRecord>): set<Uuid>
  {
    set i | 0 <= i < |users| :: users[i].uuid
  }

  lemma {:induction false} BootstrapFromEntries(sessions: SessionMap, users: seq<UserRecord>)
    requires DistinctUuids(users)
    requires forall i :: 0 <= i < |users| ==> users[i].uuid !in sessions
    ensures forall i :: 0 <= i < |users| ==>
      (users[i].uuid in BootstrapFrom(sessions, users) <==> |users[i].conversations| > 0)
    ensures forall i :: 0 <= i < |users| && |users[i].conversations| > 0 ==>
      BootstrapFrom(sessions, users)[users[i].uuid] == Replay(Restored(users[i]))
    ensures forall u :: u !in UuidsOf(users) ==>
      (u in BootstrapFrom(sessions, users) <==> u in sessions)
    ensures forall u :: u !in UuidsOf(users) && u in sessions ==>
      BootstrapFrom(sessions, users)[u] == sessions[u]
    decreases |users|
  {
    if |users| > 0 {
      var first := users[0];
      var rest := users[1..];
      var next := ReplayInto(sessions, first.uuid, Restored(first));
      ReplayIntoEffect(sessions, first.uuid, Restored(first));
      assert |Restored(first)| > 0 <==> |first.conversations| > 0;
      forall i | 0 <= i < |rest| ensures rest[i].uuid !in next {
        assert rest[i] == users[i + 1];
      }
      assert DistinctUuids(rest) by {
        forall i, j | 0 <= i < j < |rest| ensures rest[i].uuid != rest[j].uuid {
          assert rest[i] == users[i + 1] && rest[j] == users[j + 1];
        }
      }
      BootstrapFromEntries(next, rest);
      var result := BootstrapFrom(sessions, users);
      assert result == BootstrapFrom(next, rest);
      forall k | 0 <= k < |rest| ensures rest[k].uuid != first.uuid {
        assert rest[k] == users[k + 1];
      }
      assert first.uuid !in UuidsOf(rest);
      forall i | 0 <= i < |users|
        ensures users[i].uuid in result <==> |users[i].conversations| > 0
        ensures |users[i].conversations| > 0 ==> result[users[i].uuid] == Replay(Restored(users[i]))
      {
        if i > 0 {
          assert users[i] == rest[i - 1];
        }
      }
      forall u | u !in UuidsOf(users)
        ensures u in result <==> u in sessions
        ensures u in sessions ==> result[u] == sessions[u]
      {
        assert users[0].uuid in UuidsOf(users);
        forall k | 0 <= k < |rest| ensures rest[k].uuid != u {
          assert rest[k] == users[k + 1];
          assert users[k + 1].uuid in UuidsOf(users);
        }
        assert u !in UuidsOf(rest);
      }
    }
  }

  /** For users with distinct uuids, the bootstrap holds an entry exactly
      for the users that have conversations, each entry being that user's
      restored replay, and no entry for any other uuid. */
  lemma BootstrapSessions(users: seq<UserRecord>)
    requires DistinctUuids(users)
    ensures forall i :: 0 <= i < |users| ==>
      (users[i].uuid in Bootstrap(users) <==> |users[i].conversations| > 0)
    ensures forall i :: 0 <= i < |users| && |users[i].conversations| > 0 ==>
      Bootstrap(users)[users[i].uuid] == Replay(Restored(users[i]))
    ensures Bootstrap(users).Keys <= UuidsOf(users)
  {
    BootstrapFromEntries(map[], users);
  }
}
