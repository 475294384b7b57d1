/**
 * The score store as the handlers read it: `kv.list({ prefix: ["dps"] })`
 * yields one entry per user under the key `["dps", userId]`, and each
 * handler copies them into an array of `[userId, dps]` pairs.
 */
module Store {
  import opened Ranking

  /** The store key `["dps", userId]`; the store holds one global list, not one per guild. */
  datatype DpsKey = DpsKey(userId: UserId)

  /** One entry the listing yields: its key and the stored DPS. */
  datatype KvEntry = KvEntry(key: DpsKey, value: int)

  /** The pairs `[entry.key[1], entry.value]`, in listing order. */
  function Entries(listing: seq<KvEntry>): (r: seq<Entry>)
    ensures |r| == |listing|
    ensures forall i :: 0 <= i < |listing| ==> r[i] == Entry(listing[i].key.userId, listing[i].value)
  {
    seq(|listing|, i requires 0 <= i < |listing| => Entry(listing[i].key.userId, listing[i].value))
  }

  /** The `for await ... allEntries.push(...)` loop. */
  method CollectEntries(listing: seq<KvEntry>) returns (allEntries: seq<Entry>)
    ensures allEntries == Entries(listing)
  {
    allEntries := [];
    for i := 0 to |listing|
      invariant |allEntries| == i
      invariant forall k :: 0 <= k < i ==> allEntries[k] == Entry(listing[k].key.userId, listing[k].value)
    {
      var entry := listing[i];
      allEntries := allEntries + [Entry(entry.key.userId, entry.value)];
    }
  }
}
