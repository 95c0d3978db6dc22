/**
 * The two-tier cache in front of the Dexscreener request (`getCachedPair`,
 * `setCachedPair`): an in-memory map from mint to entry, and a durable
 * key/value store (the page's `localStorage`) holding the same entries as
 * serialised records under "dex-cache:" + mint. Every entry expires
 * `CacheTtlMs` after it was written; the current time is a parameter.
 */
module Cache {
  import opened Wrappers
  import opened Config
  import opened PairRecord

  /** `{ data, expires }`: a cached pair and the time (ms) from which it is stale. */
  datatype Entry = Entry(data: Pair, expires: int)

  /** A durable record: one that parses to an entry, or one whose parse fails. */
  datatype Stored = Record(entry: Entry) | Malformed

  /** The durable key of a mint. */
  function StorageKey(mint: string): string
  {
    CacheKeyPrefix + mint
  }

  /** Different mints never share a durable key. */
  lemma StorageKeyInjective(a: string, b: string)
    requires StorageKey(a) == StorageKey(b)
    ensures a == b
  {
    assert a == (CacheKeyPrefix + a)[|CacheKeyPrefix|..];
    assert b == (CacheKeyPrefix + b)[|CacheKeyPrefix|..];
  }

  /** Both tiers, as values. */
  datatype CacheState = CacheState(memory: map<string, Entry>, durable: map<string, Stored>)

  /** Is there a memory entry for `mint` that is still fresh at `now`? */
  predicate MemoryHit(s: CacheState, mint: string, now: int)
  {
    mint in s.memory && s.memory[mint].expires > now
  }

  /** Does the durable tier hold a parsed record for `mint` that is still fresh at `now`? */
  predicate FreshRecord(s: CacheState, mint: string, now: int)
  {
    && StorageKey(mint) in s.durable
    && s.durable[StorageKey(mint)].Record?
    && s.durable[StorageKey(mint)].entry.expires > now
  }

  /** The durable entry for `mint` that is still fresh at `now`, if any. */
  function DurableHit(s: CacheState, mint: string, now: int): Option<Entry>
  {
    if FreshRecord(s, mint, now) then Some(s.durable[StorageKey(mint)].entry) else None
  }

  /**
   * What `getCachedPair(mint)` returns at `now`. Expired entries count as
   * absent: a pair is returned only from an entry of one of the two tiers
   * that is still fresh, and nothing is returned exactly when neither tier
   * has one. When both have one, the memory tier answers.
   */
  function Lookup(s: CacheState, mint: string, now: int): (r: Option<Pair>)
    ensures r.Some? ==>
      || (MemoryHit(s, mint, now) && r.value == s.memory[mint].data)
      || (FreshRecord(s, mint, now) && r.value == s.durable[StorageKey(mint)].entry.data)
    ensures r.None? <==> !MemoryHit(s, mint, now) && !FreshRecord(s, mint, now)
    ensures MemoryHit(s, mint, now) ==> r == Some(s.memory[mint].data)
  {
    if MemoryHit(s, mint, now) then Some(s.memory[mint].data)
    else match DurableHit(s, mint, now)
      case Some(entry) => Some(entry.data)
      case None => None
  }

  /**
   * The state after `getCachedPair(mint)` at `now`: a fresh durable hit
   * behind a memory miss is copied into memory; nothing else changes.
   */
  function AfterLookup(s: CacheState, mint: string, now: int): (s': CacheState)
    ensures s'.durable == s.durable
    ensures forall k :: k != mint ==> (k in s'.memory <==> k in s.memory)
    ensures forall k :: k != mint && k in s.memory ==> s'.memory[k] == s.memory[k]
  {
    if MemoryHit(s, mint, now) then s
    else match DurableHit(s, mint, now)
      case Some(entry) => s.(memory := s.memory[mint := entry])
      case None => s
  }

  /**
   * The state after `setCachedPair(mint, pair)` at `now`. The memory tier
   * is always written; `persisted` is false when writing the durable record
   * fails, which leaves that tier as it was.
   */
  function Store(s: CacheState, mint: string, pair: Pair, now: int, persisted: bool): CacheState
  {
    var entry := Entry(pair, now + CacheTtlMs);
    CacheState(s.memory[mint := entry], if persisted then s.durable[StorageKey(mint) := Record(entry)] else s.durable)
  }

  /** A write is read back by every lookup of the same mint before the TTL runs out. */
  lemma StoreThenLookup(s: CacheState, mint: string, pair: Pair, now: int, persisted: bool, later: int)
    requires later < now + CacheTtlMs
    ensures Lookup(Store(s, mint, pair, now, persisted), mint, later) == Some(pair)
  {
  }

  /** Once the TTL has run out, a persisted write is not returned any more, from either tier. */
  lemma StoreThenExpired(s: CacheState, mint: string, pair: Pair, now: int, later: int)
    requires later >= now + CacheTtlMs
    ensures Lookup(Store(s, mint, pair, now, true), mint, later) == None
    ensures AfterLookup(Store(s, mint, pair, now, true), mint, later) == Store(s, mint, pair, now, true)
  {
    var s' := Store(s, mint, pair, now, true);
    assert s'.durable[StorageKey(mint)] == Record(Entry(pair, now + CacheTtlMs));
  }

  /**
   * When the durable write failed, an expired memory entry falls back to
   * whatever the durable tier held before the write.
   */
  lemma UnpersistedThenExpired(s: CacheState, mint: string, pair: Pair, now: int, later: int)
    requires later >= now + CacheTtlMs
    ensures Lookup(Store(s, mint, pair, now, false), mint, later) ==
      (if DurableHit(s, mint, later).Some? then Some(DurableHit(s, mint, later).value.data) else None)
  {
  }

  /** Writing one mint leaves every lookup of another mint as it was. */
  lemma StoreLeavesOtherMints(s: CacheState, mint: string, pair: Pair, now: int, persisted: bool, other: string, t: int)
    requires other != mint
    ensures Lookup(Store(s, mint, pair, now, persisted), other, t) == Lookup(s, other, t)
  {
    if StorageKey(other) == StorageKey(mint) {
      StorageKeyInjective(other, mint);
    }
  }

  /** A malformed durable record behind a memory miss is a miss, and the lookup changes nothing. */
  lemma MalformedIsMiss(s: CacheState, mint: string, now: int)
    requires !MemoryHit(s, mint, now)
    requires StorageKey(mint) in s.durable && s.durable[StorageKey(mint)] == Malformed
    ensures Lookup(s, mint, now) == None
    ensures AfterLookup(s, mint, now) == s
  {
  }

  /**
   * A fresh durable hit behind a memory miss is promoted: afterwards the
   * memory tier alone answers for the mint until the entry expires, whatever
   * then happens to the durable record.
   */
  lemma DurableHitPromoted(s: CacheState, mint: string, now: int, entry: Entry, later: int, durable': map<string, Stored>)
    requires !MemoryHit(s, mint, now)
    requires StorageKey(mint) in s.durable && s.durable[StorageKey(mint)] == Record(entry)
    requires entry.expires > now
    requires later < entry.expires
    ensures Lookup(s, mint, now) == Some(entry.data)
    ensures AfterLookup(s, mint, now).memory[mint] == entry
    ensures Lookup(AfterLookup(s, mint, now).(durable := durable'), mint, later) == Some(entry.data)
  {
  }

  /** Reading twice at the same time gives the same answer and the same state as reading once. */
  lemma LookupIdempotent(s: CacheState, mint: string, now: int)
    ensures Lookup(AfterLookup(s, mint, now), mint, now) == Lookup(s, mint, now)
    ensures AfterLookup(AfterLookup(s, mint, now), mint, now) == AfterLookup(s, mint, now)
  {
  }

  /** The module-level `memoryCache` together with the page's durable store. */
  class PairCache {
    var memory: map<string, Entry>
    var durable: map<string, Stored>

    function State(): CacheState
      reads this
    {
      CacheState(memory, durable)
    }

    /** A fresh page: memory is empty, the durable store holds what earlier pages left. */
    constructor (stored: map<string, Stored>)
      ensures memory == map[] && durable == stored
    {
      memory := map[];
      durable := stored;
    }

    /** `getCachedPair(mint)`, read at time `now`. */
    method GetCachedPair(mint: string, now: int) returns (r: Option<Pair>)
      modifies this
      ensures r == Lookup(old(State()), mint, now)
      ensures State() == AfterLookup(old(State()), mint, now)
    {
      if mint in memory {
        var memo := memory[mint];
        if memo.expires > now {
          return Some(memo.data);
        }
      }
      var key := StorageKey(mint);
      if key in durable {
        var stored := durable[key];
        if stored.Record? {
          var parsed := stored.entry;
          if parsed.expires > now {
            memory := memory[mint := Entry(parsed.data, parsed.expires)];
            return Some(parsed.data);
          }
        }
      }
      return None;
    }

    /** `setCachedPair(mint, pair)` at time `now`; `persisted` says whether the durable write succeeded. */
    method SetCachedPair(mint: string, pair: Pair, now: int, persisted: bool)
      modifies this
      ensures State() == Store(old(State()), mint, pair, now, persisted)
    {
      var expires := now + CacheTtlMs;
      var payload := Entry(pair, expires);
      memory := memory[mint := payload];
      if persisted {
        durable := durable[StorageKey(mint) := Record(payload)];
      }
    }
  }
}
