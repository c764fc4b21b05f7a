/** The authenticator's TTL cache in front of a user store: the decision, one lookup, and the cache as an
    object. `AuthRuns` interleaves many lookups with clock, store and invalidations. */
module AuthCache {
  import opened Tracker

  datatype Life = Life(enabled: bool, expiresAt: int, trafficLimit: nat, trafficUsed: nat)
  datatype Record = Record(password: string, maxDevices: int, life: Life)
  type Store = map<User, Record>

  /** Which optional queries the store offers. */
  datatype Caps = Caps(devices: bool, lifecycle: bool)

  datatype Account = Account(password: string, maxDevices: int, life: Option<Life>)

  datatype Deny = DenyNone | DenyBadCreds | DenyDisabled | DenyExpired | DenyTrafficLimit
  datatype CheckResult = CheckResult(username: User, maxDevices: int, deny: Deny)

  const BadCreds := CheckResult("", 0, DenyBadCreds)

  /** The decision of `CheckExt` on a looked-up account, at the moment the clock is read. */
  function Decide(acct: Option<Account>, user: User, password: string, now: int): CheckResult {
    if acct.None? || password != acct.value.password then BadCreds
    else
      var a := acct.value;
      if a.life.Some? && !a.life.value.enabled then CheckResult(user, 0, DenyDisabled)
      else if a.life.Some? && a.life.value.expiresAt > 0 && now >= a.life.value.expiresAt then
        CheckResult(user, 0, DenyExpired)
      else if a.life.Some? && a.life.value.trafficLimit > 0 && a.life.value.trafficUsed >= a.life.value.trafficLimit then
        CheckResult(user, 0, DenyTrafficLimit)
      else CheckResult(user, a.maxDevices, DenyNone)
  }

  // What each store query answers; a missing row gives empty values, not an error.

  function PasswordOf(st: Store, u: User): string {
    if u in st then st[u].password else ""
  }

  function DevicesOf(st: Store, u: User): int {
    if u in st then st[u].maxDevices else 0
  }

  function LifeOf(st: Store, u: User): Life {
    if u in st then st[u].life else Life(false, 0, 0, 0)
  }

  /** The check without a cache: one look at the store. An empty password means no such user. */
  function Uncached(st: Store, caps: Caps, user: User, password: string, now: int): CheckResult {
    if user !in st || st[user].password == "" || st[user].password != password then BadCreds
    else
      var r := st[user];
      if caps.lifecycle && !r.life.enabled then CheckResult(user, 0, DenyDisabled)
      else if caps.lifecycle && 0 < r.life.expiresAt <= now then CheckResult(user, 0, DenyExpired)
      else if caps.lifecycle && 0 < r.life.trafficLimit <= r.life.trafficUsed then CheckResult(user, 0, DenyTrafficLimit)
      else CheckResult(user, if caps.devices then r.maxDevices else 0, DenyNone)
  }

  /** What a lookup that reads everything from one store state returns. */
  function AccountOf(st: Store, caps: Caps, u: User): Option<Account> {
    if PasswordOf(st, u) == "" then None
    else Some(Account(PasswordOf(st, u), if caps.devices then DevicesOf(st, u) else 0,
                      if caps.lifecycle then Some(LifeOf(st, u)) else None))
  }

  lemma DecideIsUncached(st: Store, caps: Caps, user: User, password: string, now: int)
    ensures Decide(AccountOf(st, caps, user), user, password, now) == Uncached(st, caps, user, password, now)
  {
  }

  // ---------------------------------------------------------------- one lookup, and the cache object

  /** `acct` is `None` for a remembered absence. */
  datatype CacheEntry = CacheEntry(acct: Option<Account>, exp: int)

  /** The outcomes of the three queries: `None` is an error, or a query the store does not offer. */
  datatype Replies = Replies(password: Option<string>, devices: Option<int>, life: Option<Life>)

  function Assembled(pw: string, devices: Option<int>, life: Option<Life>): Account {
    Account(pw, if devices.Some? then devices.value else 0, life)
  }

  predicate FreshHit(cache: map<User, CacheEntry>, u: User, now: int) {
    u in cache && now < cache[u].exp
  }

  /** What one undisturbed lookup returns and leaves in the cache: a fresh entry answers by itself; otherwise
      the store does, and only a password error falls back to a stale positive entry. `now` and `later` are
      the two readings of the clock. */
  function LookedUp(cache: map<User, CacheEntry>, ttl: int, u: User, now: int, replies: Replies, later: int)
    : (Option<Account>, map<User, CacheEntry>)
  {
    if FreshHit(cache, u, now) then (cache[u].acct, cache)
    else if replies.password.None? then (if u in cache then cache[u].acct else None, cache)
    else
      var pw := replies.password.value;
      var acct := if pw == "" then None else Some(Assembled(pw, replies.devices, replies.life));
      (acct, cache[u := CacheEntry(acct, later + ttl)])
  }

  function Evicted(cache: map<User, CacheEntry>, now: int): map<User, CacheEntry> {
    map u | u in cache && now <= cache[u].exp :: cache[u]
  }

  /** Eviction leaves no entry past its expiry, and every other entry as it was. */
  lemma EvictedExactly(cache: map<User, CacheEntry>, now: int, u: User)
    ensures u in Evicted(cache, now) <==> u in cache && !(now > cache[u].exp)
    ensures u in Evicted(cache, now) ==> Evicted(cache, now)[u] == cache[u]
  {
  }

  /** No lookup made at or after an eviction notices it, except one whose password query fails and that would
      otherwise have fallen back to an expired entry that was evicted. */
  lemma EvictionShowsIff(cache: map<User, CacheEntry>, at: int, ttl: int, u: User, now: int, replies: Replies, later: int)
    requires at <= now
    ensures var r, r' := LookedUp(cache, ttl, u, now, replies, later), LookedUp(Evicted(cache, at), ttl, u, now, replies, later);
            && (r'.0 != r.0 <==> replies.password.None? && u in cache && cache[u].acct.Some? && cache[u].exp < at)
            && (replies.password.Some? ==> u in r.1 && u in r'.1 && r'.1[u] == r.1[u])
  {
    EvictedExactly(cache, at, u);
  }

  class Authenticator {
    const ttl: int
    var cache: map<User, CacheEntry>

    constructor (ttl: int)
      ensures this.ttl == (if ttl == 0 then 30 else ttl) && cache == map[]
    {
      this.ttl := if ttl == 0 then 30 else ttl;
      cache := map[];
    }

    method LookupEntry(u: User, now: int, replies: Replies, later: int) returns (acct: Option<Account>)
      modifies this
      ensures (acct, cache) == LookedUp(old(cache), ttl, u, now, replies, later)
    {
      if u in cache && now < cache[u].exp {
        return cache[u].acct;
      }
      match replies.password
      case None =>
        if u in cache && cache[u].acct.Some? {
          return cache[u].acct;
        }
        return None;
      case Some(pw) =>
        if pw == "" {
          cache := cache[u := CacheEntry(None, later + ttl)];
          return None;
        }
        acct := Some(Assembled(pw, replies.devices, replies.life));
        cache := cache[u := CacheEntry(acct, later + ttl)];
    }

    method Invalidate(u: User)
      modifies this
      ensures cache == old(cache) - {u}
    {
      cache := cache - {u};
    }

    method InvalidateAll()
      modifies this
      ensures cache == map[]
    {
      cache := map[];
    }

    /** One pass of the eviction loop. */
    method Evict(now: int)
      modifies this
      ensures cache == Evicted(old(cache), now)
    {
      var todo := cache.Keys;
      while todo != {}
        invariant todo <= cache.Keys <= old(cache).Keys
        invariant forall u | u in cache :: cache[u] == old(cache)[u]
        invariant forall u | u in old(cache) && u !in todo :: u in cache <==> now <= old(cache)[u].exp
        decreases todo
      {
        var u :| u in todo;
        if now > cache[u].exp {
          cache := cache - {u};
        }
        todo := todo - {u};
      }
    }
  }
}
