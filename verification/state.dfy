/** The conversation store (agent/state.py): a table of conversations and an
    append-only message log per conversation. Ids are drawn from a counter
    instead of UUIDs, and time is a logical clock that every write advances. */
module State {
  import opened Base

  datatype Role = System | User | Assistant
  datatype Phase = Active | Complete

  /** The state blob: the two keys the runtime reads, plus any other keys,
      carried along untouched. */
  datatype ConvState = ConvState(phase: Option<Phase>, turn: Option<int>, extra: map<string, string>)

  /** The empty mapping `{}`. */
  const EmptyState := ConvState(None, None, map[])

  datatype Conversation = Conversation(
    id: nat,
    thread: string,
    channel: string,
    user: string,
    skillName: Option<string>,
    state: ConvState,
    provider: string,
    createdAt: nat,
    updatedAt: nat)

  datatype Message = Message(role: Role, content: string, timestamp: nat)

  /** A `{"role": ..., "content": ...}` dictionary as handed to the providers
      and to the output handler. */
  datatype Turn = Turn(role: Role, content: string)

  /** One keyword argument of `update_conversation`: a column and its new value. */
  datatype Field =
    | SetThread(thread: string)
    | SetChannel(channel: string)
    | SetUser(user: string)
    | SetSkillName(skillName: Option<string>)
    | SetState(state: ConvState)
    | SetProvider(provider: string)

  datatype Column = ThreadColumn | ChannelColumn | UserColumn | SkillColumn | StateColumn | ProviderColumn

  function ColumnOf(f: Field): Column {
    match f
    case SetThread(_) => ThreadColumn
    case SetChannel(_) => ChannelColumn
    case SetUser(_) => UserColumn
    case SetSkillName(_) => SkillColumn
    case SetState(_) => StateColumn
    case SetProvider(_) => ProviderColumn
  }

  /** The current value of an updatable column, written as the field that would set it. */
  function Read(c: Conversation, col: Column): (f: Field)
    ensures ColumnOf(f) == col
  {
    match col
    case ThreadColumn => SetThread(c.thread)
    case ChannelColumn => SetChannel(c.channel)
    case UserColumn => SetUser(c.user)
    case SkillColumn => SetSkillName(c.skillName)
    case StateColumn => SetState(c.state)
    case ProviderColumn => SetProvider(c.provider)
  }

  /** `SET column = ?` for one column. */
  function ApplyField(c: Conversation, f: Field): (r: Conversation)
    ensures Read(r, ColumnOf(f)) == f
    ensures forall col :: col != ColumnOf(f) ==> Read(r, col) == Read(c, col)
    ensures r.id == c.id && r.createdAt == c.createdAt && r.updatedAt == c.updatedAt
  {
    match f
    case SetThread(t) => c.(thread := t)
    case SetChannel(ch) => c.(channel := ch)
    case SetUser(u) => c.(user := u)
    case SetSkillName(s) => c.(skillName := s)
    case SetState(s) => c.(state := s)
    case SetProvider(p) => c.(provider := p)
  }

  /** The assignments of one UPDATE, left to right; as in SQLite, when a column
      is named twice the rightmost assignment is the one that sticks. */
  function ApplyFields(c: Conversation, fields: seq<Field>): Conversation
    decreases |fields|
  {
    if |fields| == 0 then c
    else ApplyField(ApplyFields(c, fields[..|fields| - 1]), fields[|fields| - 1])
  }

  /** The last assignment to `col` among `fields`, if any. */
  function LastFor(fields: seq<Field>, col: Column): (r: Option<Field>)
    ensures r.Some? ==> r.value in fields && ColumnOf(r.value) == col
    ensures r.None? <==> forall i :: 0 <= i < |fields| ==> ColumnOf(fields[i]) != col
    decreases |fields|
  {
    if |fields| == 0 then None
    else if ColumnOf(fields[|fields| - 1]) == col then Some(fields[|fields| - 1])
    else LastFor(fields[..|fields| - 1], col)
  }

  /** An update changes exactly the columns it names, each to its last
      assigned value, and leaves id and creation time alone. */
  lemma {:induction false} ApplyFieldsEffect(c: Conversation, fields: seq<Field>, col: Column)
    ensures Read(ApplyFields(c, fields), col) == LastFor(fields, col).GetOr(Read(c, col))
    ensures ApplyFields(c, fields).id == c.id
    ensures ApplyFields(c, fields).createdAt == c.createdAt
    ensures ApplyFields(c, fields).updatedAt == c.updatedAt
    decreases |fields|
  {
    if |fields| > 0 {
      ApplyFieldsEffect(c, fields[..|fields| - 1], col);
    }
  }

  /** The two assignments the executor makes: provider, then state. */
  lemma ProviderAndState(c: Conversation, provider: string, state: ConvState)
    ensures ApplyFields(c, [SetProvider(provider), SetState(state)]) == c.(provider := provider, state := state)
  {
    var fields := [SetProvider(provider), SetState(state)];
    assert fields[..1] == [fields[0]] && fields[..1][..0] == [];
    assert ApplyFields(c, fields[..1]) == ApplyField(c, fields[0]);
  }

  predicate Chronological(ms: seq<Message>) {
    forall i, j :: 0 <= i < j < |ms| ==> ms[i].timestamp < ms[j].timestamp
  }

  /** A conversation `get_active_conversations_for_channel` reports: in the
      channel, bound to a skill, and not completed. */
  predicate IsActiveIn(c: Conversation, channel: string) {
    c.channel == channel && c.skillName.Some? && c.state.phase != Some(Complete)
  }

  predicate NewestFirst(rows: seq<Conversation>) {
    forall i, j :: 0 <= i < j < |rows| ==> rows[i].updatedAt >= rows[j].updatedAt
  }

  predicate DistinctIds(rows: seq<Conversation>) {
    forall i, j :: 0 <= i < j < |rows| ==> rows[i].id != rows[j].id
  }

  /** Among finitely many conversations one was updated last. */
  lemma {:induction false} LatestExists(cs: map<nat, Conversation>, ids: set<nat>)
    requires ids != {} && ids <= cs.Keys
    ensures exists m :: m in ids && forall p :: p in ids ==> cs[p].updatedAt <= cs[m].updatedAt
    decreases ids
  {
    var x :| x in ids;
    if ids != {x} {
      LatestExists(cs, ids - {x});
      var m :| m in ids - {x} && forall p :: p in ids - {x} ==> cs[p].updatedAt <= cs[m].updatedAt;
      if cs[x].updatedAt <= cs[m].updatedAt {
        assert forall p :: p in ids ==> cs[p].updatedAt <= cs[m].updatedAt;
      } else {
        assert forall p :: p in ids ==> cs[p].updatedAt <= cs[x].updatedAt;
      }
    } else {
      assert forall p :: p in ids ==> p == x;
    }
  }

  class ConversationStore {
    var conversations: map<nat, Conversation>
    var messages: map<nat, seq<Message>>
    /** The next fresh id. */
    var nextId: nat
    /** The logical time the next write is stamped with. */
    var clock: nat

    ghost predicate Valid()
      reads this
    {
      (forall id :: id in conversations ==>
         conversations[id].id == id && id < nextId
         && conversations[id].createdAt <= conversations[id].updatedAt < clock)
      && (forall id :: id in messages ==>
            id < nextId && Chronological(messages[id])
            && forall k :: 0 <= k < |messages[id]| ==> messages[id][k].timestamp < clock)
    }

    constructor ()
      ensures Valid() && conversations == map[] && messages == map[]
    {
      conversations, messages := map[], map[];
      nextId, clock := 0, 0;
    }

    /** `create_conversation`: a fresh id, both timestamps set to now, and the
        state `{}` when none is given. The Python default for `provider` is "local". */
    method CreateConversation(thread: string, channel: string, user: string,
                              skillName: Option<string>, state: Option<ConvState>,
                              provider: string := "local")
      returns (id: nat)
      requires Valid()
      modifies this
      ensures Valid()
      ensures id !in old(conversations) && id !in old(messages)
      ensures id == old(nextId) && nextId == old(nextId) + 1
      ensures conversations == old(conversations)[id := Conversation(
        id, thread, channel, user, skillName, state.GetOr(EmptyState), provider, old(clock), old(clock))]
      ensures messages == old(messages) && clock == old(clock) + 1
    {
      id := nextId;
      conversations := conversations[id := Conversation(
        id, thread, channel, user, skillName, state.GetOr(EmptyState), provider, clock, clock)];
      nextId := nextId + 1;
      clock := clock + 1;
    }

    /** `get_conversation`: `None` for an unknown id. */
    function GetConversation(id: nat): (r: Option<Conversation>)
      requires Valid()
      reads this
      ensures r.Some? <==> id in conversations
      ensures r.Some? ==> r.value.id == id && r.value == conversations[id]
    {
      if id in conversations then Some(conversations[id]) else None
    }

    /** The first conversation, by id from `from` on, started in this thread. */
    function FirstWithThread(thread: string, from: nat): (r: Option<Conversation>)
      requires Valid()
      reads this
      ensures r.Some? ==> r.value.id in conversations && conversations[r.value.id] == r.value
                          && r.value.thread == thread && from <= r.value.id
                          && forall k :: from <= k < r.value.id && k in conversations ==>
                               conversations[k].thread != thread
      ensures r.None? ==> forall k :: from <= k && k in conversations ==> conversations[k].thread != thread
      decreases nextId - from
    {
      if from >= nextId then None
      else if from in conversations && conversations[from].thread == thread then Some(conversations[from])
      else FirstWithThread(thread, from + 1)
    }

    /** `get_conversation_by_thread`: the earliest conversation started in that
        thread (a SELECT without ORDER BY returns rows in insertion order), or `None`. */
    function GetConversationByThread(thread: string): (r: Option<Conversation>)
      requires Valid()
      reads this
      ensures r.Some? ==> r.value.id in conversations && conversations[r.value.id] == r.value
                          && r.value.thread == thread
                          && forall k :: k < r.value.id && k in conversations ==>
                               conversations[k].thread != thread
      ensures r.None? <==> forall k :: k in conversations ==> conversations[k].thread != thread
    {
      FirstWithThread(thread, 0)
    }

    /** `update_conversation`: apply the named columns in turn, then stamp
        `updated_at`. An unknown id updates no row. */
    method UpdateConversation(id: nat, fields: seq<Field>)
      requires Valid()
      modifies this
      ensures Valid()
      ensures conversations == if id in old(conversations)
        then old(conversations)[id := ApplyFields(old(conversations)[id], fields).(updatedAt := old(clock))]
        else old(conversations)
      ensures messages == old(messages) && nextId == old(nextId) && clock == old(clock) + 1
    {
      var stamp := clock;
      clock := clock + 1;
      if id in conversations {
        var row := conversations[id];
        for i := 0 to |fields|
          invariant row == ApplyFields(conversations[id], fields[..i])
        {
          assert fields[..i + 1][..i] == fields[..i];
          row := ApplyField(row, fields[i]);
        }
        assert fields[..|fields|] == fields;
        ApplyFieldsEffect(conversations[id], fields, StateColumn);
        conversations := conversations[id := row.(updatedAt := stamp)];
      }
    }

    /** `add_message`: append to this conversation's log, stamped now. The
        conversation is not checked to exist; its id is then never handed
        out by `CreateConversation`, as a UUID would not be. */
    method AddMessage(id: nat, role: Role, content: string)
      requires Valid()
      modifies this
      ensures Valid()
      ensures messages == old(messages)[id := old(GetMessages(id)) + [Message(role, content, old(clock))]]
      ensures conversations == old(conversations) && clock == old(clock) + 1
      ensures nextId >= old(nextId) && (id < old(nextId) ==> nextId == old(nextId))
    {
      messages := messages[id := GetMessages(id) + [Message(role, content, clock)]];
      clock := clock + 1;
      if id >= nextId {
        nextId := id + 1;
      }
    }

    /** `get_messages`: this conversation's log ordered by timestamp, which is
        the order of insertion; empty for a conversation with no messages. */
    function GetMessages(id: nat): (r: seq<Message>)
      requires Valid()
      reads this
      ensures Chronological(r)
      ensures id !in messages ==> r == []
      ensures forall k :: 0 <= k < |r| ==> r[k].timestamp < clock
    {
      if id in messages then messages[id] else []
    }

    /** The ORDER BY updated_at DESC of the query: the given rows, most
        recently updated first. */
    method SelectNewestFirst(ids: set<nat>) returns (rows: seq<Conversation>)
      requires Valid() && ids <= conversations.Keys
      ensures forall k :: 0 <= k < |rows| ==> rows[k].id in ids && conversations[rows[k].id] == rows[k]
      ensures forall id :: id in ids ==> conversations[id] in rows
      ensures NewestFirst(rows) && DistinctIds(rows)
    {
      var pending := ids;
      rows := [];
      while pending != {}
        invariant pending <= ids
        invariant forall k :: 0 <= k < |rows| ==> rows[k].id in ids - pending && conversations[rows[k].id] == rows[k]
        invariant forall id :: id in ids - pending ==> conversations[id] in rows
        invariant NewestFirst(rows) && DistinctIds(rows)
        invariant forall k, p :: 0 <= k < |rows| && p in pending ==> conversations[p].updatedAt <= rows[k].updatedAt
        decreases pending
      {
        LatestExists(conversations, pending);
        var best :| best in pending
          && forall p :: p in pending ==> conversations[p].updatedAt <= conversations[best].updatedAt;
        rows := rows + [conversations[best]];
        pending := pending - {best};
      }
    }

    /** `get_active_conversations_for_channel`: the channel's skill-bound
        conversations that are not complete, most recently updated first. */
    method GetActiveConversationsForChannel(channel: string) returns (results: seq<Conversation>)
      requires Valid()
      ensures forall c :: c in results <==> c in conversations.Values && IsActiveIn(c, channel)
      ensures NewestFirst(results) && DistinctIds(results)
    {
      var ids := set id | id in conversations && conversations[id].channel == channel
                                              && conversations[id].skillName.Some?;
      var rows := SelectNewestFirst(ids);
      results := DropComplete(rows);
      forall c | c in conversations.Values && IsActiveIn(c, channel) ensures c in rows {
        var id :| id in conversations && conversations[id] == c;
        assert id in ids;
      }
    }
  }

  /** The loop of `get_active_conversations_for_channel` that skips
      completed conversations, keeping the order of the rest. */
  method DropComplete(rows: seq<Conversation>) returns (results: seq<Conversation>)
    requires NewestFirst(rows) && DistinctIds(rows)
    ensures forall c :: c in results <==> c in rows && c.state.phase != Some(Complete)
    ensures NewestFirst(results) && DistinctIds(results)
  {
    results := [];
    for i := 0 to |rows|
      invariant forall c :: c in results <==> c in rows[..i] && c.state.phase != Some(Complete)
      invariant NewestFirst(results) && DistinctIds(results)
      invariant forall k, j :: 0 <= k < |results| && i <= j < |rows| ==>
                  results[k].updatedAt >= rows[j].updatedAt && results[k].id != rows[j].id
    {
      assert rows[..i + 1] == rows[..i] + [rows[i]];
      if rows[i].state.phase == Some(Complete) {
        continue;
      }
      results := results + [rows[i]];
    }
    assert rows[..|rows|] == rows;
  }
}
