/**
 * The three memoising decorators of the utilities package: a process-wide
 * cache with timeouts (`cache_global_property`), a cache stored as an
 * attribute of the current request (`cache_current_request_property`) and a
 * per-object dictionary stored on a serializer instance
 * (`cache_serializer_result_per_object`).
 *
 * The wrapped function is deterministic in the state it reads; the model
 * receives the value it would return (`fnResult`) and reports with `called`
 * whether the wrapper invoked it.  Python's `None` is `Option.None`.
 */
module Cache {
  import opened Wrappers

  /** A cache entry and the instant it stops being served (`None`: never). */
  datatype Entry<V> = Entry(value: V, expiresAt: Option<int>)

  /** The expiry Django's cache computes from a `timeout` in seconds. */
  function ExpiryFor(timeout: Option<nat>, now: int): Option<int> {
    match timeout
    case None => None
    case Some(t) => Some(now + t)
  }

  /** `cache.get(key)` at time `now`: the stored value while it has not expired. */
  function CacheGet<V>(entries: map<string, Entry<V>>, key: string, now: int): (r: Option<V>)
    ensures r.Some? <==> key in entries && (entries[key].expiresAt.None? || now < entries[key].expiresAt.value)
    ensures r.Some? ==> r.value == entries[key].value
  {
    if key in entries && (entries[key].expiresAt.None? || now < entries[key].expiresAt.value)
    then Some(entries[key].value)
    else None
  }

  /** Django's process-wide cache backend. */
  class GlobalCache<V> {
    var entries: map<string, Entry<V>>

    constructor ()
      ensures entries == map[]
    {
      entries := map[];
    }

    method Get(key: string, now: int) returns (r: Option<V>)
      ensures r == CacheGet(entries, key, now)
    {
      if key in entries && (entries[key].expiresAt.None? || now < entries[key].expiresAt.value) {
        r := Some(entries[key].value);
      } else {
        r := None;
      }
    }

    method Set(key: string, value: V, timeout: Option<nat>, now: int)
      modifies this
      ensures entries == old(entries)[key := Entry(value, ExpiryFor(timeout, now))]
    {
      entries := entries[key := Entry(value, ExpiryFor(timeout, now))];
    }

    method Delete(key: string)
      modifies this
      ensures entries == old(entries) - {key}
    {
      entries := entries - {key};
    }
  }

  // ----- cache_global_property ---------------------------------------------

  /** What `cache.get(key)` yields to the global wrapper: a stored `None` and a
      missing key look the same. */
  function GlobalHit<T>(entries: map<string, Entry<Option<T>>>, key: string, now: int): Option<T> {
    match CacheGet(entries, key, now)
    case None => None
    case Some(v) => v
  }

  /** One call of a function wrapped by `cache_global_property`. */
  datatype GlobalCall<T> = GlobalCall(result: Option<T>, called: bool, entries: map<string, Entry<Option<T>>>)

  function GlobalPropertyCall<T>(entries: map<string, Entry<Option<T>>>, key: string, timeout: Option<nat>,
                                 now: int, fnResult: Option<T>): GlobalCall<T>
  {
    match GlobalHit(entries, key, now)
    case Some(v) => GlobalCall(Some(v), false, entries)
    case None => GlobalCall(fnResult, true, entries[key := Entry(fnResult, ExpiryFor(timeout, now))])
  }

  /** `wrapped_fn` of `cache_global_property(key, timeout)`. */
  method CachedGlobalProperty<T>(cache: GlobalCache<Option<T>>, key: string, timeout: Option<nat>,
                                 now: int, fnResult: Option<T>)
    returns (result: Option<T>, called: bool)
    modifies cache
    ensures called <==> GlobalHit(old(cache.entries), key, now).None?
    ensures !called ==> result == GlobalHit(old(cache.entries), key, now) && cache.entries == old(cache.entries)
    ensures called ==> result == fnResult
    ensures called ==> cache.entries == old(cache.entries)[key := Entry(fnResult, ExpiryFor(timeout, now))]
    ensures GlobalCall(result, called, cache.entries) == GlobalPropertyCall(old(cache.entries), key, timeout, now, fnResult)
  {
    var cached := cache.Get(key, now);
    result := if cached.Some? then cached.value else None;
    if result.Some? {
      called := false;
      return;
    }
    result := fnResult;
    cache.Set(key, result, timeout, now);
    called := true;
  }

  /** A hit returns the stored value and does not call the function; a miss
      calls it once and stores its result under the key with the timeout.  A
      non-`None` result is then served, uncalled, until the timeout passes. */
  lemma GlobalPropertyMissThenHit<T>(entries: map<string, Entry<Option<T>>>, key: string, timeout: Option<nat>,
                                     now: int, later: int, v: T, other: Option<T>)
    requires GlobalHit(entries, key, now).None?
    requires now <= later && (timeout.Some? ==> later < now + timeout.value)
    ensures GlobalPropertyCall(entries, key, timeout, now, Some(v)).called
    ensures GlobalPropertyCall(entries, key, timeout, now, Some(v)).result == Some(v)
    ensures var second := GlobalPropertyCall(GlobalPropertyCall(entries, key, timeout, now, Some(v)).entries,
                                             key, timeout, later, other);
            !second.called && second.result == Some(v)
  {
  }

  /** A `None` result is never served from the cache: the function runs again
      on the next call, whatever the timeout. */
  lemma GlobalPropertyNoneRecomputes<T>(entries: map<string, Entry<Option<T>>>, key: string, timeout: Option<nat>,
                                        now: int, later: int, next: Option<T>)
    ensures var first := GlobalPropertyCall(entries, key, timeout, now, None);
            first.called ==> GlobalPropertyCall(first.entries, key, timeout, later, next).called
  {
  }

  /** After `cache.delete(key)` the next call recomputes, exactly once. */
  lemma GlobalPropertyDeleteRecomputesOnce<T>(entries: map<string, Entry<Option<T>>>, key: string,
                                              timeout: Option<nat>, now: int, v: T, other: Option<T>)
    requires timeout != Some(0)
    ensures var first := GlobalPropertyCall(entries - {key}, key, timeout, now, Some(v));
            && first.called
            && !GlobalPropertyCall(first.entries, key, timeout, now, other).called
  {
  }

  // ----- cache_current_request_property ------------------------------------

  /** The request attribute the value is kept under. */
  function RequestAttrName(cacheKey: string): string {
    "_cache_" + cacheKey
  }

  /** Two decorated functions share a slot exactly when their keys are equal. */
  lemma RequestAttrNameInjective(k1: string, k2: string)
    ensures RequestAttrName(k1) == RequestAttrName(k2) <==> k1 == k2
  {
    if RequestAttrName(k1) == RequestAttrName(k2) {
      assert k1 == RequestAttrName(k1)[7..];
      assert k2 == RequestAttrName(k2)[7..];
    }
  }

  /** The attributes of one `HttpRequest` object that hold cached values. */
  class HttpRequest<T> {
    var attrs: map<string, T>

    constructor ()
      ensures attrs == map[]
    {
      attrs := map[];
    }
  }

  /** One call of a function wrapped by `cache_current_request_property`. */
  datatype RequestCall<T> = RequestCall(result: T, called: bool, attrs: map<string, T>)

  function RequestPropertyCall<T>(attrs: map<string, T>, cacheKey: string, fnResult: T): RequestCall<T> {
    var name := RequestAttrName(cacheKey);
    if name in attrs then RequestCall(attrs[name], false, attrs)
    else RequestCall(fnResult, true, attrs[name := fnResult])
  }

  /** `wrapped_fn(request)` of `cache_current_request_property(cache_key)`. */
  method CachedRequestProperty<T>(request: HttpRequest<T>, cacheKey: string, fnResult: T)
    returns (result: T, called: bool)
    modifies request
    ensures called <==> RequestAttrName(cacheKey) !in old(request.attrs)
    ensures !called ==> result == old(request.attrs)[RequestAttrName(cacheKey)]
    ensures called ==> result == fnResult
    ensures request.attrs == old(request.attrs)[RequestAttrName(cacheKey) := result]
    ensures RequestCall(result, called, request.attrs) == RequestPropertyCall(old(request.attrs), cacheKey, fnResult)
  {
    var name := RequestAttrName(cacheKey);
    if name in request.attrs {
      result, called := request.attrs[name], false;
      return;
    }
    result := fnResult;
    request.attrs := request.attrs[name := result];
    called := true;
  }

  /** On one request the function runs at most once per key: the second call
      returns the first result, even when that result is `None`. */
  lemma RequestPropertyOncePerRequest<T>(attrs: map<string, T>, cacheKey: string, first: T, second: T)
    ensures var c1 := RequestPropertyCall(attrs, cacheKey, first);
            var c2 := RequestPropertyCall(c1.attrs, cacheKey, second);
            !c2.called && c2.result == c1.result && c2.attrs == c1.attrs
  {
  }

  /** A request without the attribute (a different, fresh request) computes. */
  lemma RequestPropertyFreshRequestComputes<T>(cacheKey: string, v: T)
    ensures RequestPropertyCall(map[], cacheKey, v) == RequestCall(v, true, map[RequestAttrName(cacheKey) := v])
  {
  }

  // ----- cache_serializer_result_per_object --------------------------------

  /** The per-object dictionaries one serializer instance holds. */
  class Serializer<T> {
    var attrs: map<string, map<nat, T>>

    constructor ()
      ensures attrs == map[]
    {
      attrs := map[];
    }
  }

  /** One call of a method wrapped by `cache_serializer_result_per_object`. */
  datatype ObjectCall<T> = ObjectCall(result: T, called: bool, attrs: map<string, map<nat, T>>)

  function PerObjectCall<T>(attrs: map<string, map<nat, T>>, cacheKey: string, objId: nat, fnResult: T): ObjectCall<T> {
    var name := RequestAttrName(cacheKey);
    var perId: map<nat, T> := if name in attrs then attrs[name] else map[];
    if objId in perId then ObjectCall(perId[objId], false, attrs[name := perId])
    else ObjectCall(fnResult, true, attrs[name := perId[objId := fnResult]])
  }

  /** `wrapped(self, obj)` of `cache_serializer_result_per_object(cache_key)`. */
  method CachedPerObject<T>(self: Serializer<T>, cacheKey: string, objId: nat, fnResult: T)
    returns (result: T, called: bool)
    modifies self
    ensures var name := RequestAttrName(cacheKey);
            var perId: map<nat, T> := if name in old(self.attrs) then old(self.attrs)[name] else map[];
            && (called <==> objId !in perId)
            && (!called ==> result == perId[objId] && self.attrs == old(self.attrs)[name := perId])
            && (called ==> result == fnResult && self.attrs == old(self.attrs)[name := perId[objId := fnResult]])
    ensures ObjectCall(result, called, self.attrs) == PerObjectCall(old(self.attrs), cacheKey, objId, fnResult)
  {
    var name := RequestAttrName(cacheKey);
    if name !in self.attrs {
      self.attrs := self.attrs[name := map[]];
    }
    var perId: map<nat, T> := self.attrs[name];
    if objId in perId {
      result, called := perId[objId], false;
      return;
    }
    result := fnResult;
    self.attrs := self.attrs[name := perId[objId := result]];
    called := true;
  }

  /** Each object id is computed once per serializer instance; other ids and
      other keys keep their cached values. */
  lemma PerObjectOncePerId<T>(attrs: map<string, map<nat, T>>, cacheKey: string, objId: nat,
                              otherId: nat, first: T, second: T)
    ensures var c1 := PerObjectCall(attrs, cacheKey, objId, first);
            var c2 := PerObjectCall(c1.attrs, cacheKey, objId, second);
            && !c2.called && c2.result == c1.result
            && (otherId != objId ==>
                 PerObjectCall(c1.attrs, cacheKey, otherId, second).called
                 == PerObjectCall(attrs, cacheKey, otherId, second).called)
  {
  }
}
