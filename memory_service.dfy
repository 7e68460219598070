/** The frontend memory service: every write goes to the backend's cloud
    `add` endpoint, which keeps an append-only history. Updates are new
    memories that name the memory they replace, deletes are tombstones, and
    nothing is ever removed. The backend is an oracle: for each write it
    either stores the memory or rejects it; reads answer with results or
    fail. */
module MemoryService {
  import opened Common
  import opened JsValues

  type Metadata = seq<(string, Value)>

  /** `Memory`; `None` is an absent (undefined) property. */
  datatype Memory = Memory(
    id: Option<string>,
    content: string,
    userId: string,
    context: Option<string>,
    metadata: Option<Metadata>,
    createdAt: Option<string>,
    updatedAt: Option<string>)

  /** What the backend stored: the content and the metadata that were sent. */
  datatype Posted = Posted(content: string, metadata: Metadata)

  /** The backend's answer to an add: the fields of `data.result`, or a
      failed response with its status text. */
  datatype AddReply = Stored(id: Option<string>, memoryId: Option<string>, createdAt: Option<string>, updatedAt: Option<string>)
                    | Rejected(statusText: string)

  datatype ChatMessage = ChatMessage(role: string, content: string)

  const ConversationType := "conversation"
  const TombstoneType := "tombstone"

  /** `metadata || {}` (an object is always truthy). */
  function OrEmpty(metadata: Option<Metadata>): Metadata {
    if metadata.Some? then metadata.value else []
  }

  /** The metadata sent by `addMemory`: the context when truthy, then the
      caller's metadata, then `user_id`. */
  function SentMetadata(m: Memory): Metadata {
    var contextFields: Metadata := if Truthy(m.context) then [("context", Str(m.context.value))] else [];
    SetField(SpreadInto(contextFields, OrEmpty(m.metadata)), "user_id", Str(m.userId))
  }

  /** `user_id` always wins; the caller's keys override the context; a key
      set by neither is absent. */
  lemma SentMetadataFields(m: Memory)
    ensures Lookup(SentMetadata(m), "user_id") == Some(Str(m.userId))
    ensures UniqueKeys(OrEmpty(m.metadata)) ==>
      forall k | k != "user_id" && k in Keys(OrEmpty(m.metadata)) :: Lookup(SentMetadata(m), k) == Lookup(OrEmpty(m.metadata), k)
    ensures "context" !in Keys(OrEmpty(m.metadata)) ==>
      Lookup(SentMetadata(m), "context") == (if Truthy(m.context) then Some(Str(m.context.value)) else None)
    ensures forall k | k != "user_id" && k != "context" && k !in Keys(OrEmpty(m.metadata)) :: Lookup(SentMetadata(m), k).None?
  {
    var contextFields: Metadata := if Truthy(m.context) then [("context", Str(m.context.value))] else [];
    SpreadLookups(contextFields, OrEmpty(m.metadata));
  }

  /** Lookups in a spread: keys of the spread fields take their last value
      there (the only one when keys are unique), other keys keep the target's. */
  lemma {:induction false} SpreadLookups(out: Metadata, fields: Metadata)
    ensures forall k | k !in Keys(fields) :: Lookup(SpreadInto(out, fields), k) == Lookup(out, k)
    ensures UniqueKeys(fields) ==> forall k | k in Keys(fields) :: Lookup(SpreadInto(out, fields), k) == Lookup(fields, k)
  {
    forall k | k !in Keys(fields) || UniqueKeys(fields)
      ensures Lookup(SpreadInto(out, fields), k) == (if k in Keys(fields) then Lookup(fields, k) else Lookup(out, k))
    {
      if UniqueKeys(fields) {
        SpreadIntoLookup(out, fields, k);
      } else {
        SpreadMissesKey(out, fields, k);
      }
    }
  }

  lemma {:induction false} SpreadMissesKey(out: Metadata, fields: Metadata, k: string)
    requires k !in Keys(fields)
    ensures Lookup(SpreadInto(out, fields), k) == Lookup(out, k)
    decreases fields
  {
    if fields != [] {
      assert Keys(fields) == [fields[0].0] + Keys(fields[1..]);
      SpreadMissesKey(SetField(out, fields[0].0, fields[0].1), fields[1..], k);
    }
  }

  /** The memory `addMemory` hands back: the caller's fields, and the id and
      timestamps the backend reported (`id || memory_id || undefined`). */
  function Normalized(m: Memory, id: Option<string>, memoryId: Option<string>,
                      createdAt: Option<string>, updatedAt: Option<string>): (r: Memory)
    ensures r.content == m.content && r.userId == m.userId && r.context == m.context && r.metadata == m.metadata
    ensures Truthy(id) ==> r.id == id
    ensures !Truthy(id) ==> r.id == Present(memoryId)
    ensures r.createdAt == Present(createdAt) && r.updatedAt == Present(updatedAt)
  {
    Memory(if Truthy(id) then id else Present(memoryId), m.content, m.userId, m.context, m.metadata,
           Present(createdAt), Present(updatedAt))
  }

  function AddFailed(statusText: string): string {
    "Failed to add memory: " + statusText
  }

  // ---------------------------------------------------------------------------
  // Conversations

  /** `messages.find(m => m.role === role)?.content || ''` */
  function FirstContent(messages: seq<ChatMessage>, role: string): (r: string)
    ensures (forall k | 0 <= k < |messages| :: messages[k].role != role) ==> r == ""
    ensures forall k | 0 <= k < |messages| && messages[k].role == role ::
      (forall j | 0 <= j < k :: messages[j].role != role) ==> r == messages[k].content
  {
    if messages == [] then ""
    else if messages[0].role == role then messages[0].content
    else
      assert forall k | 1 <= k < |messages| :: messages[k] == messages[1..][k - 1];
      FirstContent(messages[1..], role)
  }

  function ConversationContent(messages: seq<ChatMessage>): string {
    "User: " + FirstContent(messages, "user") + "\nAssistant: " + FirstContent(messages, "assistant")
  }

  /** `{ ...metadata, type: 'conversation' }` */
  function ConversationMetadata(metadata: Option<Metadata>): Metadata {
    SetField(SpreadInto([], OrEmpty(metadata)), "type", Str(ConversationType))
  }

  /** The conversation metadata has unique keys, its `type` is
      'conversation' whatever the caller passed, and it has no key the
      caller did not pass besides `type`. */
  lemma ConversationMetadataFields(metadata: Option<Metadata>)
    ensures Lookup(ConversationMetadata(metadata), "type") == Some(Str(ConversationType))
    ensures UniqueKeys(ConversationMetadata(metadata))
    ensures forall k | k != "type" && k !in Keys(OrEmpty(metadata)) :: Lookup(ConversationMetadata(metadata), k).None?
  {
    SpreadIntoUnique([], OrEmpty(metadata));
    SpreadMissesKeys([], OrEmpty(metadata));
    SetFieldUnique(SpreadInto([], OrEmpty(metadata)), "type", Str(ConversationType));
  }

  lemma SpreadMissesKeys(out: Metadata, fields: Metadata)
    ensures forall k | k !in Keys(fields) :: Lookup(SpreadInto(out, fields), k) == Lookup(out, k)
  {
    SpreadLookups(out, fields);
  }

  /** The memory written for one context. */
  function ConversationMemory(messages: seq<ChatMessage>, userId: string, context: string, metadata: Option<Metadata>): Memory {
    Memory(None, ConversationContent(messages), userId, Some(context), Some(ConversationMetadata(metadata)), None, None)
  }

  /** What the backend holds of a conversation memory: the content and a
      metadata whose `type` is 'conversation' whatever the caller passed. */
  lemma ConversationPostIsConversation(messages: seq<ChatMessage>, userId: string, context: string, metadata: Option<Metadata>)
    ensures var sent := SentMetadata(ConversationMemory(messages, userId, context, metadata));
      && Lookup(sent, "type") == Some(Str(ConversationType))
      && Lookup(sent, "user_id") == Some(Str(userId))
  {
    ConversationMetadataFields(metadata);
    SentMetadataFields(ConversationMemory(messages, userId, context, metadata));
  }

  /** The post a conversation memory leaves in the history. */
  function ConversationPost(messages: seq<ChatMessage>, userId: string, context: string, metadata: Option<Metadata>): (p: Posted)
    ensures p.content == ConversationContent(messages)
    ensures Lookup(p.metadata, "type") == Some(Str(ConversationType))
  {
    ConversationPostIsConversation(messages, userId, context, metadata);
    Posted(ConversationContent(messages), SentMetadata(ConversationMemory(messages, userId, context, metadata)))
  }

  /** The posts a fan-out over `contexts` leaves behind: one per context
      whose write was stored, in list order. */
  function FanOutPosts(messages: seq<ChatMessage>, userId: string, contexts: seq<string>,
                       metadata: Option<Metadata>, replies: seq<AddReply>): (r: seq<Posted>)
    requires |replies| == |contexts|
    ensures |r| <= |contexts|
    decreases |contexts|
  {
    if contexts == [] then []
    else
      var n := |contexts| - 1;
      FanOutPosts(messages, userId, contexts[..n], metadata, replies[..n])
      + (if replies[n].Stored? then [ConversationPost(messages, userId, contexts[n], metadata)] else [])
  }

  /** `r` holds exactly one conversation post per context, in order. */
  predicate OnePerContext(r: seq<Posted>, messages: seq<ChatMessage>, userId: string, contexts: seq<string>, metadata: Option<Metadata>) {
    && |r| == |contexts|
    && forall k | 0 <= k < |r| :: r[k] == ConversationPost(messages, userId, contexts[k], metadata)
  }

  /** When every write is stored, the fan-out leaves exactly one post per
      context, in order. */
  lemma {:induction false} FanOutAllStored(messages: seq<ChatMessage>, userId: string, contexts: seq<string>,
                                           metadata: Option<Metadata>, replies: seq<AddReply>)
    requires |replies| == |contexts|
    requires forall k | 0 <= k < |replies| :: replies[k].Stored?
    ensures OnePerContext(FanOutPosts(messages, userId, contexts, metadata, replies), messages, userId, contexts, metadata)
    decreases |contexts|
  {
    if contexts != [] {
      var r := FanOutPosts(messages, userId, contexts, metadata, replies);
      var n := |contexts| - 1;
      assert forall k | 0 <= k < n :: replies[..n][k] == replies[k];
      FanOutAllStored(messages, userId, contexts[..n], metadata, replies[..n]);
      var init := FanOutPosts(messages, userId, contexts[..n], metadata, replies[..n]);
      var p := ConversationPost(messages, userId, contexts[n], metadata);
      assert replies[n].Stored?;
      assert r == init + [p];
      OnePerContextSnoc(init, p, messages, userId, contexts, metadata);
    }
  }

  lemma OnePerContextSnoc(init: seq<Posted>, p: Posted, messages: seq<ChatMessage>, userId: string,
                          contexts: seq<string>, metadata: Option<Metadata>)
    requires |contexts| > 0
    requires OnePerContext(init, messages, userId, contexts[..|contexts| - 1], metadata)
    requires p == ConversationPost(messages, userId, contexts[|contexts| - 1], metadata)
    ensures OnePerContext(init + [p], messages, userId, contexts, metadata)
  {
    var n := |contexts| - 1;
    forall k | 0 <= k < n + 1
      ensures (init + [p])[k] == ConversationPost(messages, userId, contexts[k], metadata)
    {
      if k < n {
        assert (init + [p])[k] == init[k] && contexts[k] == contexts[..n][k];
      }
    }
  }

  /** Every post holds the content `c`. */
  predicate AllWithContent(ps: seq<Posted>, c: string) {
    forall k | 0 <= k < |ps| :: ps[k].content == c
  }

  lemma WithContentConcat(a: seq<Posted>, b: seq<Posted>, c: string)
    requires AllWithContent(a, c) && AllWithContent(b, c)
    ensures AllWithContent(a + b, c)
  {
    forall k | 0 <= k < |a + b| ensures (a + b)[k].content == c {
      if k < |a| { assert (a + b)[k] == a[k]; } else { assert (a + b)[k] == b[k - |a|]; }
    }
  }

  /** Every post of a fan-out carries the same content, whichever writes
      were stored. */
  lemma {:induction false} FanOutSameContent(messages: seq<ChatMessage>, userId: string, contexts: seq<string>,
                                             metadata: Option<Metadata>, replies: seq<AddReply>)
    requires |replies| == |contexts|
    ensures AllWithContent(FanOutPosts(messages, userId, contexts, metadata, replies), ConversationContent(messages))
    decreases |contexts|
  {
    if contexts != [] {
      var n := |contexts| - 1;
      FanOutSameContent(messages, userId, contexts[..n], metadata, replies[..n]);
      var init := FanOutPosts(messages, userId, contexts[..n], metadata, replies[..n]);
      var tail := if replies[n].Stored? then [ConversationPost(messages, userId, contexts[n], metadata)] else [];
      assert AllWithContent(tail, ConversationContent(messages));
      WithContentConcat(init, tail, ConversationContent(messages));
    }
  }

  /** Every post's metadata says 'conversation'. */
  predicate AllConversations(ps: seq<Posted>) {
    forall k | 0 <= k < |ps| :: Lookup(ps[k].metadata, "type") == Some(Str(ConversationType))
  }

  /** The posts of a fan-out are all conversations, so they delete nothing. */
  lemma {:induction false} FanOutPostsAreConversations(messages: seq<ChatMessage>, userId: string, contexts: seq<string>,
                                                      metadata: Option<Metadata>, replies: seq<AddReply>)
    requires |replies| == |contexts|
    ensures AllConversations(FanOutPosts(messages, userId, contexts, metadata, replies))
    decreases |contexts|
  {
    if contexts != [] {
      var n := |contexts| - 1;
      FanOutPostsAreConversations(messages, userId, contexts[..n], metadata, replies[..n]);
      var init := FanOutPosts(messages, userId, contexts[..n], metadata, replies[..n]);
      var p := ConversationPost(messages, userId, contexts[n], metadata);
      var tail := if replies[n].Stored? then [p] else [];
      assert AllConversations(tail);
      ConversationsConcat(init, tail);
    }
  }

  lemma ConversationsConcat(a: seq<Posted>, b: seq<Posted>)
    requires AllConversations(a) && AllConversations(b)
    ensures AllConversations(a + b)
  {
    forall k | 0 <= k < |a + b| ensures Lookup((a + b)[k].metadata, "type") == Some(Str(ConversationType)) {
      if k < |a| { assert (a + b)[k] == a[k]; } else { assert (a + b)[k] == b[k - |a|]; }
    }
  }

  /** The first rejected write of a fan-out, in list order. */
  function FirstRejection(replies: seq<AddReply>): (r: Option<string>)
    ensures r.None? <==> forall k | 0 <= k < |replies| :: replies[k].Stored?
  {
    if replies == [] then None
    else if replies[0].Rejected? then Some(AddFailed(replies[0].statusText))
    else
      assert forall k | 1 <= k < |replies| :: replies[k] == replies[1..][k - 1];
      FirstRejection(replies[1..])
  }

  /** The error reported is the message of the first rejected write: every
      write before it was stored. */
  lemma {:induction false} FirstRejectionIsFirst(replies: seq<AddReply>)
    requires FirstRejection(replies).Some?
    ensures exists k | 0 <= k < |replies| ::
      && replies[k].Rejected? && FirstRejection(replies).value == AddFailed(replies[k].statusText)
      && forall j | 0 <= j < k :: replies[j].Stored?
  {
    if replies[0].Stored? {
      FirstRejectionIsFirst(replies[1..]);
      var k :| 0 <= k < |replies[1..]| && replies[1..][k].Rejected?
               && FirstRejection(replies[1..]).value == AddFailed(replies[1..][k].statusText)
               && forall j | 0 <= j < k :: replies[1..][j].Stored?;
      assert forall j | 1 <= j < k + 1 :: replies[j] == replies[1..][j - 1];
      assert replies[k + 1] == replies[1..][k];
    } else {
      assert replies[0].Rejected?;
    }
  }

  // ---------------------------------------------------------------------------
  // Tombstones

  function TombstoneContent(id: string): string {
    "[TOMBSTONE] delete memory id=" + id
  }

  /** `{ type: 'tombstone', target_id: id }` */
  function TombstoneMetadata(id: string): (r: Metadata)
    ensures UniqueKeys(r)
    ensures Lookup(r, "type") == Some(Str(TombstoneType)) && Lookup(r, "target_id") == Some(Str(id))
  {
    var r: Metadata := [("type", Str(TombstoneType)), ("target_id", Str(id))];
    assert r[0].0[1] != r[1].0[1];
    LookupUnique(r, 0);
    LookupUnique(r, 1);
    r
  }

  /** The memory id a stored post deletes, if it is a tombstone. */
  function TombstoneTarget(p: Posted): (r: seq<string>)
    ensures |r| <= 1
    ensures Lookup(p.metadata, "type") != Some(Str(TombstoneType)) ==> r == []
  {
    if Lookup(p.metadata, "type") == Some(Str(TombstoneType)) && Lookup(p.metadata, "target_id").Some?
       && Lookup(p.metadata, "target_id").value.Str?
    then [Lookup(p.metadata, "target_id").value.s]
    else []
  }

  /** The post a tombstone memory leaves deletes exactly its id. */
  lemma TombstonePostTargets(id: string, userId: string)
    ensures var m := Memory(None, TombstoneContent(id), userId, None, Some(TombstoneMetadata(id)), None, None);
      TombstoneTarget(Posted(TombstoneContent(id), SentMetadata(m))) == [id]
  {
    var m := Memory(None, TombstoneContent(id), userId, None, Some(TombstoneMetadata(id)), None, None);
    SentMetadataFields(m);
    assert Lookup(SentMetadata(m), "type") == Some(Str(TombstoneType));
    assert Lookup(SentMetadata(m), "target_id") == Some(Str(id));
  }

  /** The ids deleted so far, in the order of their tombstones. */
  function Deleted(log: seq<Posted>): (r: seq<string>)
    ensures |r| <= |log|
  {
    if log == [] then [] else Deleted(log[..|log| - 1]) + TombstoneTarget(log[|log| - 1])
  }

  lemma DeletedAppend(log: seq<Posted>, p: Posted)
    ensures Deleted(log + [p]) == Deleted(log) + TombstoneTarget(p)
  {
    assert (log + [p])[..|log|] == log;
  }

  /** Posts whose type is not 'tombstone' delete nothing. */
  lemma {:induction false} NoTombstonesDeleteNothing(log: seq<Posted>, more: seq<Posted>)
    requires forall k | 0 <= k < |more| :: Lookup(more[k].metadata, "type") != Some(Str(TombstoneType))
    ensures Deleted(log + more) == Deleted(log)
    decreases |more|
  {
    if more != [] {
      var n := |more| - 1;
      assert log + more == (log + more[..n]) + [more[n]];
      DeletedAppend(log + more[..n], more[n]);
      NoTombstonesDeleteNothing(log, more[..n]);
      assert TombstoneTarget(more[n]) == [];
    } else {
      assert log + more == log;
    }
  }

  // ---------------------------------------------------------------------------
  // Reads

  /** The body of a search request. */
  datatype SearchRequest = SearchRequest(query: string, limit: int, context: Option<string>)

  /** `limit: options.limit || 10`, and the context only when truthy. */
  function SearchBody(query: string, limit: Option<int>, context: Option<string>): (r: SearchRequest)
    ensures r.query == query && r.context == Present(context)
    ensures limit.Some? && limit.value != 0 ==> r.limit == limit.value
    ensures limit.None? || limit.value == 0 ==> r.limit == 10
  {
    SearchRequest(query, if limit.Some? && limit.value != 0 then limit.value else 10, Present(context))
  }

  /** A read's answer: `data.results` (possibly absent), or a failure of the
      request, of the response status or of the JSON parse. */
  datatype ReadReply<T> = Answered(results: Option<seq<T>>) | Unavailable

  /** `searchMemories`: the results, or [] when there are none or the request failed. */
  function SearchMemories(reply: ReadReply<Value>): (r: seq<Value>)
    ensures reply.Unavailable? || reply.results.None? ==> r == []
    ensures reply.Answered? && reply.results.Some? ==> r == reply.results.value
  {
    if reply.Answered? && reply.results.Some? then reply.results.value else []
  }

  /** `getCoreRelationshipMemories`: a personal-context search limited to five. */
  function CoreRelationshipSearch(): (r: SearchRequest)
    ensures r.limit == 5 && r.context == Some("personal")
  {
    SearchBody("relationship core values preferences", Some(5), Some("personal"))
  }

  /** A stored memory as the cloud listing returns it. */
  datatype CloudMemory = CloudMemory(
    id: Option<string>,
    memoryId: Option<string>,
    memory: Option<string>,
    content: Option<string>,
    metadata: Option<Metadata>,
    createdAt: Option<string>,
    updatedAt: Option<string>)

  /** One listed memory: `id || memory_id`, `memory || content || ''`, and
      the caller's user id and context. */
  function FromCloud(c: CloudMemory, userId: string, context: Option<string>): (r: Memory)
    ensures r.userId == userId && r.context == context && r.metadata == c.metadata
    ensures r.id == (if Truthy(c.id) then c.id else c.memoryId)
    ensures Truthy(c.memory) ==> r.content == c.memory.value
    ensures !Truthy(c.memory) ==> r.content == OrElse(c.content, "")
    ensures r.createdAt == Present(c.createdAt) && r.updatedAt == Present(c.updatedAt)
  {
    Memory(if Truthy(c.id) then c.id else c.memoryId,
           if Truthy(c.memory) then c.memory.value else OrElse(c.content, ""),
           userId, context, c.metadata, Present(c.createdAt), Present(c.updatedAt))
  }

  /** `getAllMemories`: every listed memory normalised, in order, or [] on failure. */
  function GetAllMemories(userId: string, context: Option<string>, reply: ReadReply<CloudMemory>): (r: seq<Memory>)
    ensures reply.Unavailable? || reply.results.None? ==> r == []
    ensures reply.Answered? && reply.results.Some? ==>
      |r| == |reply.results.value|
      && forall k | 0 <= k < |r| :: r[k] == FromCloud(reply.results.value[k], userId, context)
  {
    if reply.Answered? && reply.results.Some? then
      var rs := reply.results.value;
      seq(|rs|, k requires 0 <= k < |rs| => FromCloud(rs[k], userId, context))
    else []
  }

  // ---------------------------------------------------------------------------
  // The writes, over the backend's history

  class MemoryClient {
    /** The memories the backend has stored, oldest first. */
    var posted: seq<Posted>

    constructor ()
      ensures posted == []
    {
      posted := [];
    }

    /** `addMemory`: one post, stored or rejected. */
    method AddMemory(m: Memory, reply: AddReply) returns (r: Result<Memory, string>)
      modifies this
      ensures reply.Stored? ==>
        && posted == old(posted) + [Posted(m.content, SentMetadata(m))]
        && r == Ok(Normalized(m, reply.id, reply.memoryId, reply.createdAt, reply.updatedAt))
      ensures reply.Rejected? ==> posted == old(posted) && r == Err(AddFailed(reply.statusText))
    {
      if reply.Rejected? {
        r := Err(AddFailed(reply.statusText));
        return;
      }
      posted := posted + [Posted(m.content, SentMetadata(m))];
      r := Ok(Normalized(m, reply.id, reply.memoryId, reply.createdAt, reply.updatedAt));
    }

    /** `updateMemory`: appends the new content with `replaces_id`, and
        answers with the original id; the old memory stays. */
    method UpdateMemory(id: string, content: string, userId: string, metadata: Option<Metadata>, reply: AddReply)
      returns (r: Result<Memory, string>)
      modifies this
      ensures reply.Stored? ==>
        && |posted| == |old(posted)| + 1 && posted[..|old(posted)|] == old(posted)
        && posted[|old(posted)|].content == content
        && Lookup(posted[|old(posted)|].metadata, "replaces_id") == Some(Str(id))
        && Lookup(posted[|old(posted)|].metadata, "user_id") == Some(Str(userId))
        && r == Ok(Memory(Some(id), content, userId, None, metadata, None, None))
      ensures reply.Stored? && UniqueKeys(OrEmpty(metadata)) ==>
        forall k | k != "replaces_id" && k != "user_id" ::
          Lookup(posted[|old(posted)|].metadata, k) == Lookup(OrEmpty(metadata), k)
      ensures reply.Rejected? ==> posted == old(posted) && r == Err(AddFailed(reply.statusText))
    {
      SpreadIntoUnique([], OrEmpty(metadata));
      var meta := SetField(SpreadInto([], OrEmpty(metadata)), "replaces_id", Str(id));
      SetFieldUnique(SpreadInto([], OrEmpty(metadata)), "replaces_id", Str(id));
      SpreadLookups([], OrEmpty(metadata));
      SpreadLookups([], meta);
      var m := Memory(None, content, userId, None, Some(meta), None, None);
      SentMetadataFields(m);
      var added := AddMemory(m, reply);
      if added.Err? {
        r := Err(added.error);
        return;
      }
      r := Ok(Memory(Some(id), content, userId, None, metadata, None, None));
    }

    /** `deleteMemory`: appends a tombstone naming the id; nothing is removed. */
    method DeleteMemory(id: string, userId: string, reply: AddReply) returns (r: Result<(), string>)
      modifies this
      ensures reply.Stored? ==>
        && posted == old(posted) + [Posted(TombstoneContent(id), SentMetadata(Memory(None, TombstoneContent(id), userId, None, Some(TombstoneMetadata(id)), None, None)))]
        && Deleted(posted) == Deleted(old(posted)) + [id]
        && r == Ok(())
      ensures reply.Rejected? ==> posted == old(posted) && r == Err(AddFailed(reply.statusText))
    {
      var m := Memory(None, TombstoneContent(id), userId, None, Some(TombstoneMetadata(id)), None, None);
      TombstonePostTargets(id, userId);
      var added := AddMemory(m, reply);
      if added.Err? {
        r := Err(added.error);
        return;
      }
      DeletedAppend(old(posted), Posted(TombstoneContent(id), SentMetadata(m)));
      r := Ok(());
    }

    /** `addConversation`: one memory holding the first user and assistant
        messages, in the given context or 'personal'. */
    method AddConversation(messages: seq<ChatMessage>, userId: string, context: Option<string>,
                           metadata: Option<Metadata>, reply: AddReply)
      returns (r: Result<(), string>)
      modifies this
      ensures reply.Stored? ==>
        && posted == old(posted) + [Posted(ConversationContent(messages),
                                           SentMetadata(ConversationMemory(messages, userId, OrElse(context, "personal"), metadata)))]
        && Deleted(posted) == Deleted(old(posted))
        && r == Ok(())
      ensures reply.Rejected? ==> posted == old(posted) && r == Err(AddFailed(reply.statusText))
    {
      var m := ConversationMemory(messages, userId, OrElse(context, "personal"), metadata);
      var added := AddMemory(m, reply);
      if added.Err? {
        r := Err(added.error);
        return;
      }
      ConversationPostIsConversation(messages, userId, OrElse(context, "personal"), metadata);
      DeletedAppend(old(posted), Posted(ConversationContent(messages), SentMetadata(m)));
      r := Ok(());
    }

    /** `addConversationToMultipleContexts`: one memory per context with the
        same content; an empty list writes nothing. The writes run
        concurrently; the model keeps them in list order, and the error
        reported is the first rejection in that order. */
    method AddConversationToMultipleContexts(messages: seq<ChatMessage>, userId: string, contexts: seq<string>,
                                             metadata: Option<Metadata>, replies: seq<AddReply>)
      returns (r: Result<(), string>)
      requires |replies| == |contexts|
      modifies this
      ensures posted == old(posted) + FanOutPosts(messages, userId, contexts, metadata, replies)
      ensures Deleted(posted) == Deleted(old(posted))
      ensures FirstRejection(replies).None? ==> r == Ok(())
      ensures FirstRejection(replies).Some? ==> r == Err(FirstRejection(replies).value)
    {
      posted := posted + FanOutPosts(messages, userId, contexts, metadata, replies);
      FanOutPostsAreConversations(messages, userId, contexts, metadata, replies);
      NoConversationDeletes(old(posted), FanOutPosts(messages, userId, contexts, metadata, replies));
      var failure := FirstRejection(replies);
      r := if failure.None? then Ok(()) else Err(failure.value);
    }
  }

  lemma NoConversationDeletes(log: seq<Posted>, more: seq<Posted>)
    requires AllConversations(more)
    ensures Deleted(log + more) == Deleted(log)
  {
    NoTombstonesDeleteNothing(log, more);
  }
}
