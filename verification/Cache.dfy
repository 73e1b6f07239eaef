/** The result cache: keyed by the ticket's normal form, first write wins. */
module Cache {
  import opened Common
  import opened Records
  import opened Texts

  /** `ticket.strip().lower()`; the digest of this text is the key. */
  function Normalised(lower: string -> string, ticket: string): string {
    lower(Strip(ticket))
  }

  /** White space around a ticket does not matter, everything between it does, in lower case. */
  lemma KeyIgnoresOuterSpace(lower: string -> string, before: string, body: string, after: string)
    requires AllSpace(before) && AllSpace(after) && Trim(body)
    ensures Normalised(lower, before + body + after) == lower(body)
  {
    StripUnique(before, body, after);
  }

  /** `SET key value NX`. */
  function SetIfAbsent(store: map<string, Dict>, key: string, d: Dict): (store': map<string, Dict>)
    ensures key in store'
    ensures forall k :: k in store ==> k in store' && store'[k] == store[k]
  {
    if key in store then store else store[key := d]
  }

  class DeduplicationCache {
    const lower: string -> string
    var store: map<string, Dict>
    var hits: nat
    var misses: nat

    constructor (lower: string -> string)
      ensures this.lower == lower && store == map[] && hits == 0 && misses == 0
    {
      this.lower, store, hits, misses := lower, map[], 0, 0;
    }

    method Get(ticket: string) returns (cached: Option<Dict>)
      modifies this`hits, this`misses
      ensures var key := Normalised(lower, ticket);
              && cached == (if key in store then Some(store[key]) else None)
              && hits == old(hits) + (if key in store then 1 else 0)
              && misses == old(misses) + (if key in store then 0 else 1)
    {
      var key := Normalised(lower, ticket);
      if key in store {
        hits := hits + 1;
        return Some(store[key]);
      }
      misses := misses + 1;
      return None;
    }

    method Set(ticket: string, result: Dict)
      modifies this`store
      ensures store == SetIfAbsent(old(store), Normalised(lower, ticket), result)
    {
      var key := Normalised(lower, ticket);
      if key !in store {
        store := store[key := result];
      }
    }

    function HitRate(): (rate: real)
      reads this
      ensures 0.0 <= rate <= 1.0 && rate * (hits + misses) as real == hits as real
    {
      var total := hits + misses;
      if total == 0 then 0.0 else hits as real / total as real
    }
  }
}
