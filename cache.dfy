/** getCachedData (src/service/ChargingStationService.ts:53-72): cache-aside
    over one redis key. The redis client becomes a key-value map with the
    expiry of each key's last write; the fetch it falls back on becomes the
    outcome that call has, handed in by the caller. Stored values are the
    catalog itself, since JSON.parse undoes JSON.stringify on that data, and a
    stored value is never the empty (falsy) string. */
module Cache {
  import opened Common
  import opened Errors
  import opened Records

  /** AppConstant.REDIS_CACHE_KEY; the constants file is not part of this
      model, and its value is the one the service's tests expect. */
  const REDIS_CACHE_KEY: string := "ChargingStations"
  const CACHE_KEY: string := "openchargemap:" + REDIS_CACHE_KEY
  /** `EX: 3600`, one hour. */
  const CACHE_SECONDS: int := 3600

  /** What redis holds, the expiry set by each key's last write (in
      seconds), and the page size of every fetch made, in order. */
  datatype CacheState = CacheState(entries: map<string, seq<ChargingStation>>, ttl: map<string, int>, fetchCalls: seq<int>)

  /** One call of getCachedData: redis `get` fails with `getFault`, the fetch
      ends with `fetched` and redis `set` fails with `setFault`; every failure
      is re-thrown as it is. */
  function GetCachedRun(st: CacheState, maxresults: int, getFault: Option<string>,
                         fetched: Result<seq<ChargingStation>, Thrown>, setFault: Option<string>)
    : (Result<seq<ChargingStation>, Thrown>, CacheState)
  {
    if getFault.Some? then (Err(Plain(getFault.value)), st)
    else if CACHE_KEY in st.entries then (Ok(st.entries[CACHE_KEY]), st)
    else
      var called := st.(fetchCalls := st.fetchCalls + [maxresults]);
      match fetched
      case Err(e) => (Err(e), called)
      case Ok(data) =>
        if setFault.Some? then (Err(Plain(setFault.value)), called)
        else (Ok(data), called.(entries := st.entries[CACHE_KEY := data], ttl := st.ttl[CACHE_KEY := CACHE_SECONDS]))
  }

  /** The service's use of redis. */
  class CacheAside {
    var entries: map<string, seq<ChargingStation>>
    var ttl: map<string, int>
    var fetchCalls: seq<int>

    function State(): CacheState
      reads this
    {
      CacheState(entries, ttl, fetchCalls)
    }

    constructor (initial: map<string, seq<ChargingStation>>)
      ensures State() == CacheState(initial, map[], [])
    {
      entries, ttl, fetchCalls := initial, map[], [];
    }

    method GetCachedData(maxresults: int, getFault: Option<string>,
                         fetched: Result<seq<ChargingStation>, Thrown>, setFault: Option<string>)
      returns (r: Result<seq<ChargingStation>, Thrown>)
      modifies this
      ensures (r, State()) == GetCachedRun(old(State()), maxresults, getFault, fetched, setFault)
    {
      if getFault.Some? {
        return Err(Plain(getFault.value));
      }
      var cached := if CACHE_KEY in entries then Some(entries[CACHE_KEY]) else None;
      if cached.Some? {
        return Ok(cached.value);
      }
      fetchCalls := fetchCalls + [maxresults];
      if fetched.Err? {
        return Err(fetched.error);
      }
      var data := fetched.value;
      if setFault.Some? {
        return Err(Plain(setFault.value));
      }
      entries := entries[CACHE_KEY := data];
      ttl := ttl[CACHE_KEY := CACHE_SECONDS];
      return Ok(data);
    }
  }

  /** The key is fixed: it is `openchargemap:ChargingStations` whatever page
      size is asked for, and no other key is read or written. */
  lemma CacheKeyIsFixed(st: CacheState, maxresults: int, getFault: Option<string>,
                        fetched: Result<seq<ChargingStation>, Thrown>, setFault: Option<string>)
    ensures CACHE_KEY == "openchargemap:ChargingStations"
    ensures var after := GetCachedRun(st, maxresults, getFault, fetched, setFault).1;
      && after.entries.Keys <= st.entries.Keys + {CACHE_KEY}
      && (forall k :: k in st.entries && k != CACHE_KEY ==> k in after.entries && after.entries[k] == st.entries[k])
      && (forall k :: k in st.ttl && k != CACHE_KEY ==> k in after.ttl && after.ttl[k] == st.ttl[k])
  {
  }

  /** A hit returns the cached catalog and fetches nothing. */
  lemma CacheHit(st: CacheState, maxresults: int, fetched: Result<seq<ChargingStation>, Thrown>, setFault: Option<string>)
    requires CACHE_KEY in st.entries
    ensures GetCachedRun(st, maxresults, None, fetched, setFault) == (Ok(st.entries[CACHE_KEY]), st)
  {
  }

  /** A miss fetches exactly once, with the caller's page size; a successful
      fetch whose write succeeds is stored under the key for an hour and
      returned as it is; a failed fetch or write is re-thrown unchanged and
      leaves redis as it was. */
  lemma CacheMiss(st: CacheState, maxresults: int, fetched: Result<seq<ChargingStation>, Thrown>, setFault: Option<string>)
    requires CACHE_KEY !in st.entries
    ensures var (r, after) := GetCachedRun(st, maxresults, None, fetched, setFault);
      && after.fetchCalls == st.fetchCalls + [maxresults]
      && (fetched.Err? ==> r == fetched && after.entries == st.entries && after.ttl == st.ttl)
      && (fetched.Ok? && setFault.Some? ==> r == Err(Plain(setFault.value)) && after.entries == st.entries)
      && (fetched.Ok? && setFault.None? ==>
            && r == fetched
            && after.entries == st.entries[CACHE_KEY := fetched.value]
            && CACHE_KEY in after.ttl && after.ttl[CACHE_KEY] == 3600)
  {
  }

  /** A failed read is re-thrown before anything else happens. */
  lemma CacheReadFailure(st: CacheState, maxresults: int, msg: string,
                         fetched: Result<seq<ChargingStation>, Thrown>, setFault: Option<string>)
    ensures GetCachedRun(st, maxresults, Some(msg), fetched, setFault) == (Err(Plain(msg)), st)
  {
  }

  /** A call fetches at most once, and whatever it returns is either what
      redis held or what that fetch produced. */
  lemma CacheResult(st: CacheState, maxresults: int, getFault: Option<string>,
                    fetched: Result<seq<ChargingStation>, Thrown>, setFault: Option<string>)
    ensures var (r, after) := GetCachedRun(st, maxresults, getFault, fetched, setFault);
      && (after.fetchCalls == st.fetchCalls || after.fetchCalls == st.fetchCalls + [maxresults])
      && (r.Ok? ==> (CACHE_KEY in st.entries && r.value == st.entries[CACHE_KEY])
                    || (fetched.Ok? && r.value == fetched.value && after.fetchCalls == st.fetchCalls + [maxresults]))
      && (r.Ok? ==> CACHE_KEY in after.entries && after.entries[CACHE_KEY] == r.value)
  {
  }

  /** Since the key ignores the page size, once a call has filled the cache
      the next call gets that data back, whatever page size it asks for and
      without fetching. */
  lemma PageSizeIgnoredOnceCached(st: CacheState, m1: int, m2: int, data: seq<ChargingStation>,
                                  fetched2: Result<seq<ChargingStation>, Thrown>, setFault2: Option<string>)
    ensures var (r1, mid) := GetCachedRun(st, m1, None, Ok(data), None);
      var (r2, after) := GetCachedRun(mid, m2, None, fetched2, setFault2);
      && r1.Ok? && r2 == r1
      && after == mid
      && (CACHE_KEY !in st.entries ==> r1 == Ok(data) && mid.fetchCalls == st.fetchCalls + [m1])
  {
  }
}
