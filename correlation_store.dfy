/** The process-wide `aiResponses` map that the webhook writes and the poll
    endpoint reads (src/app/api/ai-webhook/route.ts and
    src/app/api/check-ai-response/route.ts both declare it). It is an
    explicit object here, passed to both handlers, instead of a global. */
module CorrelationStore {
  import opened Common
  import opened Types

  /** The `AIResponse` interface: what is kept for one chat id. A stored
      entry carries no chat id of its own; the map key is the only binding. */
  datatype StoredResponse = StoredResponse(
    question: Option<string>,
    answers: Option<seq<string>>,
    remaining: Remaining,
    descricaoLooks: Option<LookDescription>,
    items1: Slot,
    items2: Slot,
    items3: Slot,
    items4: Slot,
    items5: Slot,
    timestamp: int)

  /** `Map.set`: the new entry replaces whatever the key held; every other
      key keeps its entry. */
  function PutEntry(m: map<string, StoredResponse>, key: string, entry: StoredResponse)
    : (m': map<string, StoredResponse>)
    ensures m'.Keys == m.Keys + {key}
    ensures m'[key] == entry
    ensures forall k :: k in m && k != key ==> m'[k] == m[k]
  {
    m[key := entry]
  }

  /** `get` followed by `delete` when something was found: the entry at the
      key, if any, and the map without that key. */
  function TakeEntry(m: map<string, StoredResponse>, key: string)
    : (r: (Option<StoredResponse>, map<string, StoredResponse>))
    ensures r.0 == None <==> key !in m
    ensures r.0.Some? ==> r.0.value == m[key]
    ensures r.1.Keys == m.Keys - {key}
    ensures forall k :: k in r.1 ==> r.1[k] == m[k]
  {
    if key in m then (Some(m[key]), m - {key}) else (None, m)
  }

  /** Consume once: a second take of the same key, with no write in between,
      finds nothing and changes nothing. */
  lemma ConsumeOnce(m: map<string, StoredResponse>, key: string)
    ensures TakeEntry(TakeEntry(m, key).1, key).0 == None
    ensures TakeEntry(TakeEntry(m, key).1, key).1 == TakeEntry(m, key).1
  {
  }

  /** Last write wins: of two writes to one key before any take, only the
      second is retrievable, and a take then leaves the key empty. */
  lemma LastWriteWins(m: map<string, StoredResponse>, key: string, first: StoredResponse, second: StoredResponse)
    ensures TakeEntry(PutEntry(PutEntry(m, key, first), key, second), key).0 == Some(second)
    ensures key !in TakeEntry(PutEntry(PutEntry(m, key, first), key, second), key).1
  {
  }

  /** Writes and takes on different keys do not interfere. */
  lemma KeysIndependent(m: map<string, StoredResponse>, k1: string, k2: string, entry: StoredResponse)
    requires k1 != k2
    ensures TakeEntry(PutEntry(m, k1, entry), k2).0 == TakeEntry(m, k2).0
    ensures TakeEntry(TakeEntry(PutEntry(m, k1, entry), k2).1, k1).0 == Some(entry)
  {
  }

  /** The store object: one mutable map, changed only by `Set` and `Delete`. */
  class Store {
    var entries: map<string, StoredResponse>

    constructor ()
      ensures entries == map[]
    {
      entries := map[];
    }

    function Get(key: string): (r: Option<StoredResponse>)
      reads this
      ensures r.Some? <==> key in entries
      ensures r.Some? ==> r.value == entries[key]
    {
      if key in entries then Some(entries[key]) else None
    }

    method Set(key: string, entry: StoredResponse)
      modifies this
      ensures entries == PutEntry(old(entries), key, entry)
    {
      entries := entries[key := entry];
    }

    method Delete(key: string)
      modifies this
      ensures entries == old(entries) - {key}
    {
      entries := entries - {key};
    }
  }
}
