/** backend/memory.py: `MemoryStore`, an in-memory table from session id to
    a chat object. The chat object is opaque, so the store is generic in it. */
module Memory {
  import opened Wrappers

  class MemoryStore<Chat> {
    /** `_sessions`. */
    var sessions: map<string, Chat>

    /** A new store holds no session. */
    constructor ()
      ensures sessions == map[]
    {
      sessions := map[];
    }

    /** `get`: the stored chat, or `None` when the id has none. */
    function Get(sessionId: string): (r: Option<Chat>)
      reads this
      ensures r.Some? <==> sessionId in sessions
      ensures r.Some? ==> r.value == sessions[sessionId]
    {
      if sessionId in sessions then Some(sessions[sessionId]) else None
    }

    /** `set`: stores the chat, replacing any earlier one for the id. */
    method Set(sessionId: string, chat: Chat)
      modifies this
      ensures sessions == old(sessions)[sessionId := chat]
      ensures Get(sessionId) == Some(chat)
      ensures forall other | other != sessionId :: Get(other) == old(Get(other))
    {
      sessions := sessions[sessionId := chat];
    }

    /** `clear`: drops the id's entry; an absent id is left alone. */
    method Clear(sessionId: string)
      modifies this
      ensures sessions == old(sessions) - {sessionId}
      ensures Get(sessionId) == None
      ensures sessionId !in old(sessions) ==> sessions == old(sessions)
      ensures forall other | other != sessionId :: Get(other) == old(Get(other))
    {
      sessions := sessions - {sessionId};
    }
  }

  /** A fresh store answers `None` for every id. */
  method FreshStoreIsEmpty<Chat>(sessionId: string) returns (r: Option<Chat>)
    ensures r == None
  {
    var store := new MemoryStore<Chat>();
    r := store.Get(sessionId);
  }

  /** `get` after `set` returns what was stored (test_set_and_get). */
  method SetThenGet<Chat>(sessionId: string, chat: Chat) returns (r: Option<Chat>)
    ensures r == Some(chat)
  {
    var store := new MemoryStore<Chat>();
    store.Set(sessionId, chat);
    r := store.Get(sessionId);
  }

  /** `get` after `set` then `clear` returns `None` (test_clear). */
  method SetClearGet<Chat>(sessionId: string, chat: Chat) returns (r: Option<Chat>)
    ensures r == None
  {
    var store := new MemoryStore<Chat>();
    store.Set(sessionId, chat);
    store.Clear(sessionId);
    r := store.Get(sessionId);
  }

  /** A second `set` on the same id wins, and clearing one id keeps another. */
  method OverwriteAndClearOther<Chat>(a: string, b: string, first: Chat, second: Chat, other: Chat)
    returns (ra: Option<Chat>, rb: Option<Chat>)
    requires a != b
    ensures ra == Some(second) && rb == None
  {
    var store := new MemoryStore<Chat>();
    store.Set(a, first);
    store.Set(b, other);
    store.Set(a, second);
    store.Clear(b);
    store.Clear(b);
    ra := store.Get(a);
    rb := store.Get(b);
  }
}
