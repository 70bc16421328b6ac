/** The browser-side cache `initGooglePay` keeps of the Google Pay initial
    data: its key, its freshness rule and the purge of stale entries. The
    store is `localStorage`, a map from keys to stored values. */
module InitCache {
  import opened CheckoutTypes
  import opened Cookies

  /** The prefix every cache key carries. */
  const CachePrefix: string := "googleExpressCheckoutInitData_"

  /** How long, in seconds, a cached entry is used. */
  const MaxAge: int := 3600

  /** A value under a key of the store: an entry `initGooglePay` wrote (the
      payment data, the countries reply and the second it was made), or
      any other text, which does not parse as such an entry. */
  datatype StoredValue =
    | InitSnapshot(paymentSystemData: PaymentSystemData, countries: CountriesReply, createTime: int)
    | OtherValue(text: string)

  type Store = map<string, StoredValue>

  /** A cookie value concatenated into a string: `undefined` renders as
      its name. */
  function CookiePart(v: Option<string>): string {
    if v.Some? then v.value else "undefined"
  }

  /** The key of the cache entry for the shop's region, language and
      currency cookies. */
  function CacheKey(cookie: string): (key: string)
    ensures |CachePrefix| <= |key| && key[..|CachePrefix|] == CachePrefix
  {
    CachePrefix + CookiePart(GetCookie(cookie, "REGID")) + "_" +
    CookiePart(GetCookie(cookie, "LANGID")) + "_" + CookiePart(GetCookie(cookie, "CURRID"))
  }

  predicate HasCachePrefix(key: string) {
    |CachePrefix| <= |key| && key[..|CachePrefix|] == CachePrefix
  }

  /** An entry created at `createTime` is still used at second `now`. */
  predicate Fresh(now: int, createTime: int) {
    !(now - createTime > MaxAge)
  }

  /** Removing every key that carries the cache prefix. */
  function Purge(store: Store): (r: Store)
    ensures forall k :: k in r <==> k in store && !HasCachePrefix(k)
    ensures forall k :: k in r ==> r[k] == store[k]
  {
    map k | k in store && !HasCachePrefix(k) :: store[k]
  }

  /** What the store offers for `key` at second `now`: a fresh snapshot,
      nothing (no entry, or a stale one), or a value that does not parse. */
  datatype Lookup = Hit(snapshot: StoredValue) | Miss | Unparsable

  function LookUp(store: Store, key: string, now: int): (r: Lookup)
    ensures r.Hit? ==> key in store && r.snapshot == store[key] && r.snapshot.InitSnapshot? &&
                       Fresh(now, r.snapshot.createTime)
    ensures r.Miss? <==> key !in store || (store[key].InitSnapshot? && !Fresh(now, store[key].createTime))
    ensures r.Unparsable? <==> key in store && store[key].OtherValue?
  {
    if key !in store then Miss
    else match store[key]
      case OtherValue(_) => Unparsable
      case InitSnapshot(_, _, t) => if Fresh(now, t) then Hit(store[key]) else Miss
  }

  /** The store after a miss has been refilled: no other cache entry is
      left, everything else stays, and the key holds the new snapshot. */
  lemma RefillKeepsOneEntry(store: Store, key: string, snap: StoredValue)
    requires HasCachePrefix(key)
    ensures var r := Purge(store)[key := snap];
            (forall k :: k in r && HasCachePrefix(k) ==> k == key) &&
            r[key] == snap &&
            (forall k :: k in store && !HasCachePrefix(k) ==> k in r && r[k] == store[k])
  {
  }

  /** Within the hour a refilled entry is a hit; after it, a miss. */
  lemma RefilledEntryAge(store: Store, key: string, created: PaymentSystemData, countries: CountriesReply,
                         createdAt: int, now: int)
    ensures var r := Purge(store)[key := InitSnapshot(created, countries, createdAt)];
            (now - createdAt <= MaxAge ==> LookUp(r, key, now) == Hit(InitSnapshot(created, countries, createdAt))) &&
            (now - createdAt > MaxAge ==> LookUp(r, key, now) == Miss)
  {
  }
}
