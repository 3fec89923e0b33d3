// The time-slot hook of the booking page (src/hooks/useAvailability.ts): a
// module-wide cache of slot lists with a five-minute lifetime in front of the
// `get_available_slots` RPC. The RPC's answer and the clock are parameters; the
// selected date arrives already as its `YYYY-MM-DD` string, and the 300 ms
// debounce is left out.
module Availability {
  import opened Wrappers
  import opened Text

  /** CACHE_TTL: five minutes in milliseconds. */
  const CacheTtl := 5 * 60 * 1000

  datatype Slot = Slot(slotTime: string, isAvailable: bool)

  datatype CacheEntry = CacheEntry(data: seq<Slot>, timestamp: int)

  /** The cache key `${companyId}-${dateStr}-${serviceDuration}`. */
  function CacheKey(companyId: string, dateStr: string, serviceDuration: int): (k: string)
    ensures IsPrefix(companyId + "-" + dateStr + "-", k)
    ensures k[|companyId| + |dateStr| + 2..] == IntToString(serviceDuration)
  {
    var p := companyId + "-" + dateStr + "-";
    assert (p + IntToString(serviceDuration))[..|p|] == p;
    p + IntToString(serviceDuration)
  }

  /** A cache hit: an entry younger than the lifetime. */
  function Lookup(cache: map<string, CacheEntry>, key: string, now: int): (r: Option<seq<Slot>>)
    ensures r.Some? <==> key in cache && now - cache[key].timestamp < CacheTtl
    ensures r.Some? ==> r.value == cache[key].data
  {
    if key in cache && now - cache[key].timestamp < CacheTtl then Some(cache[key].data) else None
  }

  /** What one call of fetchSlots did. */
  datatype FetchKind = Skipped | CacheHit | Fetched

  class Hook {
    var cache: map<string, CacheEntry>
    var slots: seq<Slot>
    var loading: bool
    var error: Option<string>

    constructor (cache: map<string, CacheEntry>)
      ensures this.cache == cache && slots == [] && !loading && error.None?
    {
      this.cache := cache;
      slots := [];
      loading := false;
      error := None;
    }

    /** fetchSlots. `date` is None when no date is selected; `rpc` is what the RPC would
      * answer (Ok(None) for a null result) and is consulted only on a cache miss; `doneAt`
      * is the instant the answer arrives. */
    method FetchSlots(enabled: bool, companyId: string, date: Option<string>, serviceDuration: int,
                      now: int, rpc: Result<Option<seq<Slot>>>, doneAt: int)
      returns (kind: FetchKind)
      modifies this
      ensures kind == Skipped <==> !enabled || date.None? || companyId == ""
      ensures kind == Skipped ==>
        slots == [] && cache == old(cache) && loading == old(loading) && error == old(error)
      ensures kind != Skipped ==> var key := CacheKey(companyId, date.value, serviceDuration);
        (kind == CacheHit <==> Lookup(old(cache), key, now).Some?)
        && (kind == CacheHit ==>
              slots == Lookup(old(cache), key, now).value && cache == old(cache)
              && loading == old(loading) && error == old(error))
        && (kind == Fetched && rpc.Ok? ==>
              slots == rpc.value.GetOr([]) && error == None && !loading
              && cache == old(cache)[key := CacheEntry(rpc.value.GetOr([]), doneAt)])
        && (kind == Fetched && rpc.Err? ==>
              slots == [] && !loading && cache == old(cache)
              && error == Some(if rpc.error != "" then rpc.error else "Erro ao carregar horários disponíveis"))
    {
      if !enabled || date.None? || companyId == "" {
        slots := [];
        return Skipped;
      }
      var key := CacheKey(companyId, date.value, serviceDuration);
      var cached := Lookup(cache, key, now);
      if cached.Some? {
        slots := cached.value;
        return CacheHit;
      }
      loading := true;
      error := None;
      match rpc {
        case Ok(data) =>
          var slotsData := data.GetOr([]);
          slots := slotsData;
          cache := cache[key := CacheEntry(slotsData, doneAt)];
        case Err(message) =>
          error := Some(if message != "" then message else "Erro ao carregar horários disponíveis");
          slots := [];
      }
      loading := false;
      return Fetched;
    }
  }

  /** After a fetch stores its data, a request for the same key less than five minutes later
    * gets that data back from the cache, and one five minutes later or more does not. */
  lemma StoredEntryLifetime(cache: map<string, CacheEntry>, key: string, data: seq<Slot>, storedAt: int, now: int)
    requires storedAt <= now
    ensures var c := cache[key := CacheEntry(data, storedAt)];
      (Lookup(c, key, now) == Some(data) <==> now < storedAt + 300000)
      && (now >= storedAt + 300000 ==> Lookup(c, key, now).None?)
  {
  }

  /** Storing under one key never changes what another key finds. */
  lemma OtherKeysUntouched(cache: map<string, CacheEntry>, key: string, other: string, e: CacheEntry, now: int)
    requires other != key
    ensures Lookup(cache[key := e], other, now) == Lookup(cache, other, now)
  {
  }

  /** Requests that differ in the service duration use different cache entries. */
  lemma DurationSeparatesKeys(companyId: string, dateStr: string, d1: nat, d2: nat)
    requires d1 != d2
    ensures CacheKey(companyId, dateStr, d1) != CacheKey(companyId, dateStr, d2)
  {
    if CacheKey(companyId, dateStr, d1) == CacheKey(companyId, dateStr, d2) {
      assert IntToString(d1) == IntToString(d2);
      ParsePrinted(d1);
      ParsePrinted(d2);
    }
  }
}
