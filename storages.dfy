/**
 * Signed-URL expiry of the Azure media storage.  Short expiries are left to
 * the storage library; an expiry of an hour or more is replaced by the start
 * of the next UTC hour, so every URL signed within one hour is the same URL
 * and can be cached.
 *
 * Instants are integers counting microseconds since the Unix epoch in UTC
 * (the resolution of Python's `datetime`); UTC has no daylight-saving jumps,
 * so the hours start at the multiples of `HourMicros`.
 */
module Storages {
  const HourSeconds: int := 3600
  const HourMicros: int := 3_600_000_000

  /** What `_expire_at` returns: the library's own expiry for `expire` seconds
      (`AzureStorage._expire_at` is not part of this model), or an instant. */
  datatype Expiry = Delegated(expire: int) | At(instant: int)

  /** `CustomAzureStorage._expire_at(expire)` called at instant `now`. */
  function ExpireAt(expire: int, now: int): (r: Expiry)
    ensures r.Delegated? <==> expire < HourSeconds
    ensures r.Delegated? ==> r.expire == expire
    ensures r.At? ==> r.instant % HourMicros == 0 && now < r.instant <= now + HourMicros
  {
    if expire < HourSeconds then Delegated(expire)
    else At(((now + HourMicros) / HourMicros) * HourMicros)
  }

  /** Two long expiries asked for within the same UTC hour give the same
      instant, whatever their lengths: the result depends only on the hour. */
  lemma SameHourSameUrl(expire1: int, expire2: int, now1: int, now2: int)
    requires expire1 >= HourSeconds && expire2 >= HourSeconds
    requires now1 / HourMicros == now2 / HourMicros
    ensures ExpireAt(expire1, now1) == ExpireAt(expire2, now2)
    ensures ExpireAt(expire1, now1).instant == (now1 / HourMicros + 1) * HourMicros
  {
    assert (now1 + HourMicros) / HourMicros == now1 / HourMicros + 1;
    assert (now2 + HourMicros) / HourMicros == now2 / HourMicros + 1;
  }

  /** An instant in a later hour never gets an earlier expiry. */
  lemma ExpiryMonotone(expire: int, now1: int, now2: int)
    requires expire >= HourSeconds && now1 <= now2
    ensures ExpireAt(expire, now1).instant <= ExpireAt(expire, now2).instant
  {
  }
}
