/**
  The conversation store of services/storage.ts: one blob under `@chat_history`
  holding a record from conversation id to conversation, loaded, changed and
  written back whole by every operation; and a separate `@system_prompt` slot.

  AsyncStorage is the two fields of `ConversationStore`; a key that was never
  written is None.  `JSON.stringify` followed by `JSON.parse` is the identity on
  the record, so the blob is kept as the map itself.  Timestamps are the
  integers `new Date(timestamp).getTime()` gives.
 */
module Storage {
  import opened Wrappers

  datatype Sender = User | Ai

  datatype ChatMessage = ChatMessage(
    id: string,
    text: string,
    sender: Sender,
    timestamp: string,
    image: Option<string>)

  datatype Conversation = Conversation(
    id: string,
    name: string,
    lastMessage: string,
    timestamp: int,
    messages: seq<ChatMessage>,
    category: Option<string>,
    systemPrompt: Option<string>)

  type Record = map<string, Conversation>

  /** Every conversation is filed under its own id, as `chats[conversation.id] = conversation` files it. */
  predicate KeysMatch(m: Record) {
    forall id :: id in m ==> m[id].id == id
  }

  /** The record a load starts from: the stored one, or `{}` when the blob was never written. */
  function Load(blob: Option<Record>): (m: Record)
    ensures blob.None? ==> m == map[]
    ensures blob.Some? ==> m == blob.value
  {
    match blob
    case None => map[]
    case Some(m) => m
  }

  /** `getConversation(id)`: the stored conversation, or null when nothing is stored or the id is absent. */
  function Lookup(blob: Option<Record>, id: string): (r: Option<Conversation>)
    ensures r.Some? <==> blob.Some? && id in blob.value
    ensures r.Some? ==> r.value == blob.value[id]
  {
    if blob.Some? && id in blob.value then Some(blob.value[id]) else None
  }

  /** The record `saveConversation(c)` writes back: the loaded record with `c` filed under `c.id`. */
  function Upsert(blob: Option<Record>, c: Conversation): (m: Record)
    ensures c.id in m && m[c.id] == c
    ensures m.Keys == Load(blob).Keys + {c.id}
    ensures forall id :: id in Load(blob) && id != c.id ==> m[id] == Load(blob)[id]
  {
    Load(blob)[c.id := c]
  }

  /** What `deleteConversation(id)` leaves: nothing when the blob was never written, else the record without `id`. */
  function Remove(blob: Option<Record>, id: string): (r: Option<Record>)
    ensures blob.None? ==> r.None?
    ensures blob.Some? ==> r.Some? && r.value.Keys == blob.value.Keys - {id}
    ensures blob.Some? ==> forall k :: k in r.value ==> r.value[k] == blob.value[k]
  {
    match blob
    case None => None
    case Some(m) => Some(m - {id})
  }

  /** Newest first: timestamps never increase along the list. */
  predicate NewestFirst(s: seq<Conversation>) {
    forall i, j :: 0 <= i < j < |s| ==> s[i].timestamp >= s[j].timestamp
  }

  /** Puts `c` in front of the first conversation that is not newer, keeping the list newest first. */
  function InsertByTime(c: Conversation, s: seq<Conversation>): (r: seq<Conversation>)
    requires NewestFirst(s)
    ensures NewestFirst(r)
    ensures multiset(r) == multiset(s) + multiset{c}
    ensures |r| == |s| + 1
    ensures r[0] == if s == [] || c.timestamp >= s[0].timestamp then c else s[0]
  {
    if s == [] then [c]
    else if c.timestamp >= s[0].timestamp then [c] + s
    else
      var t := InsertByTime(c, s[1..]);
      assert s == [s[0]] + s[1..];
      [s[0]] + t
  }

  /**
    `.sort((a, b) => b.timestamp - a.timestamp)`: the same conversations,
    newest first.  (The insertion places a conversation before the equal ones
    after it, as a stable sort does; the contract does not state this.)
   */
  function SortNewestFirst(s: seq<Conversation>): (r: seq<Conversation>)
    ensures NewestFirst(r)
    ensures multiset(r) == multiset(s)
  {
    if s == [] then []
    else
      assert s == [s[0]] + s[1..];
      InsertByTime(s[0], SortNewestFirst(s[1..]))
  }

  /**
    `s` lists the record: one entry per key, each the conversation filed
    under its id, and every filed conversation among them.
   */
  predicate Lists(s: seq<Conversation>, m: Record) {
    && |s| == |m|
    && (forall i :: 0 <= i < |s| ==> s[i].id in m && m[s[i].id] == s[i])
    && (forall id :: id in m ==> m[id] in s)
  }

  /** Sorting a listing of a record gives a listing of the same record. */
  lemma SortKeepsListing(s: seq<Conversation>, m: Record)
    requires Lists(s, m)
    ensures Lists(SortNewestFirst(s), m)
  {
    var r := SortNewestFirst(s);
    assert |r| == |multiset(r)| == |multiset(s)| == |s|;
    forall x ensures x in r <==> x in s {
      assert x in r <==> x in multiset(r);
      assert x in s <==> x in multiset(s);
    }
    forall i | 0 <= i < |r| ensures r[i].id in m && m[r[i].id] == r[i] {
      assert r[i] in s;
    }
  }

  /** `s` lists the part of the record filed under `ids`. */
  predicate ListsPart(s: seq<Conversation>, m: Record, ids: set<string>) {
    && |s| == |ids|
    && (forall i :: 0 <= i < |s| ==> s[i].id in ids && s[i].id in m && m[s[i].id] == s[i])
    && (forall id :: id in ids ==> id in m && m[id] in s)
  }

  /** Appending the conversation filed under a new id lists one id more. */
  lemma ListsOneMore(s: seq<Conversation>, m: Record, ids: set<string>, id: string)
    requires KeysMatch(m) && ListsPart(s, m, ids)
    requires id in m && id !in ids
    ensures ListsPart(s + [m[id]], m, ids + {id})
  {
    var t := s + [m[id]];
    assert |ids + {id}| == |ids| + 1;
    assert forall x :: x in s ==> x in t;
    assert t[|s|] == m[id];
  }

  /** `Object.values(chats)`: one entry per key, the conversation filed under it. */
  method ObjectValues(m: Record) returns (values: seq<Conversation>)
    requires KeysMatch(m)
    ensures Lists(values, m)
  {
    values := [];
    var rest := m.Keys;
    ghost var seen: set<string> := {};
    while rest != {}
      invariant seen !! rest && seen + rest == m.Keys
      invariant ListsPart(values, m, seen)
      decreases rest
    {
      var id :| id in rest;
      ListsOneMore(values, m, seen, id);
      values := values + [m[id]];
      rest := rest - {id};
      seen := seen + {id};
    }
    assert seen == m.Keys;
    assert |m.Keys| == |m|;
  }

  class ConversationStore {
    /** The `@chat_history` blob; None until it is first written. */
    var chats: Option<Record>
    /** The `@system_prompt` slot; None until it is first written. */
    var prompt: Option<string>

    predicate Valid()
      reads this
    {
      chats.Some? ==> KeysMatch(chats.value)
    }

    /** A device on which neither key has been written. */
    constructor ()
      ensures chats == None && prompt == None
      ensures Valid()
    {
      chats := None;
      prompt := None;
    }

    /** `saveConversation(c)`: load, file `c` under its id, write the record back. */
    method SaveConversation(c: Conversation)
      requires Valid()
      modifies this
      ensures Valid()
      ensures chats == Some(Upsert(old(chats), c))
      ensures prompt == old(prompt)
    {
      var m: Record := if chats.Some? then chats.value else map[];
      m := m[c.id := c];
      chats := Some(m);
    }

    /** `getConversation(id)`. */
    method GetConversation(id: string) returns (r: Option<Conversation>)
      ensures r == Lookup(chats, id)
    {
      if chats.None? {
        return None;
      }
      var m := chats.value;
      if id in m {
        r := Some(m[id]);
      } else {
        r := None;
      }
    }

    /**
      `getAllConversations()`: `Object.values` of the record, sorted newest
      first; `[]` when the blob was never written.
     */
    method GetAllConversations() returns (r: seq<Conversation>)
      requires Valid()
      ensures chats.None? ==> r == []
      ensures chats.Some? ==> Lists(r, chats.value)
      ensures NewestFirst(r)
    {
      if chats.None? {
        return [];
      }
      var values := ObjectValues(chats.value);
      r := SortNewestFirst(values);
      SortKeepsListing(values, chats.value);
    }

    /** `deleteConversation(id)`: nothing when the blob was never written, else load, drop `id`, write back. */
    method DeleteConversation(id: string)
      requires Valid()
      modifies this
      ensures Valid()
      ensures chats == Remove(old(chats), id)
      ensures prompt == old(prompt)
    {
      if chats.None? {
        return;
      }
      var m := chats.value;
      m := m - {id};
      chats := Some(m);
    }

    /** `clearAllConversations()`: write the empty record. */
    method ClearAllConversations()
      modifies this
      ensures Valid()
      ensures chats == Some(map[])
      ensures prompt == old(prompt)
    {
      chats := Some(map[]);
    }

    /** `saveSystemPrompt(p)`: the prompt slot only. */
    method SaveSystemPrompt(p: string)
      requires Valid()
      modifies this
      ensures Valid()
      ensures prompt == Some(p)
      ensures chats == old(chats)
    {
      prompt := Some(p);
    }

    /** `getSystemPrompt()`: the stored prompt, or null when none was saved. */
    method GetSystemPrompt() returns (r: Option<string>)
      ensures r == prompt
    {
      r := prompt;
    }
  }

  // ---------------------------------------------------------------------------
  // Properties of the store's operations

  /** After `saveConversation(c)`, `getConversation(c.id)` gives `c`. */
  lemma SaveThenGet(blob: Option<Record>, c: Conversation)
    ensures Lookup(Some(Upsert(blob, c)), c.id) == Some(c)
  {
  }

  /** Saving `c` leaves every other id as it was, present or absent. */
  lemma SaveKeepsOthers(blob: Option<Record>, c: Conversation, id: string)
    requires id != c.id
    ensures Lookup(Some(Upsert(blob, c)), id) == Lookup(blob, id)
  {
  }

  /** Saving the same conversation twice writes what saving it once writes. */
  lemma SaveIdempotent(blob: Option<Record>, c: Conversation)
    ensures Upsert(Some(Upsert(blob, c)), c) == Upsert(blob, c)
  {
  }

  /** Saving keeps every conversation filed under its own id. */
  lemma SaveKeepsKeysMatch(blob: Option<Record>, c: Conversation)
    requires blob.Some? ==> KeysMatch(blob.value)
    ensures KeysMatch(Upsert(blob, c))
  {
  }

  /** Deleting `id` makes it absent and leaves every other id as it was. */
  lemma DeleteRemovesOnly(blob: Option<Record>, id: string, other: string)
    requires other != id
    ensures Lookup(Remove(blob, id), id) == None
    ensures Lookup(Remove(blob, id), other) == Lookup(blob, other)
  {
  }

  /** After clearing, every lookup gives null and the listing is empty. */
  lemma ClearedIsEmpty(id: string, listing: seq<Conversation>)
    requires Lists(listing, map[])
    ensures Lookup(Some(map[]), id) == None
    ensures listing == []
  {
  }
}
