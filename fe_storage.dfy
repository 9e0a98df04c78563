/**
 * The mobile client's local storage (mobile/www/js/storage.js): the
 * session tokens, the queue of actions recorded while offline, and the
 * localStorage fallback of the data cache used when SQLite is missing.
 * Each storage key is a field; None means the key is not stored.
 */
module FeStorage {
  import opened Wrappers

  /** An action waiting to be replayed, stamped with Date.now() as its id. */
  datatype QueuedAction = QueuedAction(id: string, timestamp: string, payload: string)

  /** A cache entry: the value and the absolute expiry, if any. */
  datatype CacheEntry = CacheEntry(value: string, expiresAt: Option<int>)

  /** The decimal digits of a non-negative integer, as Number.prototype.toString writes them. */
  function DecimalString(n: nat): (s: string)
    ensures |s| >= 1
    ensures forall i :: 0 <= i < |s| ==> '0' <= s[i] <= '9'
  {
    if n < 10 then [(('0' as int) + n) as char]
    else DecimalString(n / 10) + [(('0' as int) + n % 10) as char]
  }

  /** The rows of a queue whose id differs from `id`, in order (queue.filter). */
  function Without(queue: seq<QueuedAction>, id: string): (r: seq<QueuedAction>)
    ensures |r| <= |queue|
  {
    if queue == [] then []
    else if queue[|queue| - 1].id == id then Without(queue[..|queue| - 1], id)
    else Without(queue[..|queue| - 1], id) + [queue[|queue| - 1]]
  }

  /** Without drops exactly the entries carrying the id. */
  lemma {:induction false} WithoutMembers(queue: seq<QueuedAction>, id: string)
    ensures forall a :: a in Without(queue, id) <==> a in queue && a.id != id
  {
    if queue != [] {
      WithoutMembers(queue[..|queue| - 1], id);
      assert queue == queue[..|queue| - 1] + [queue[|queue| - 1]];
    }
  }

  /** Filtering a queue with one more entry filters the old queue and keeps the entry unless it has the id. */
  lemma {:induction false} WithoutAppend(queue: seq<QueuedAction>, a: QueuedAction, id: string)
    ensures Without(queue + [a], id) == if a.id == id then Without(queue, id) else Without(queue, id) + [a]
  {
    assert (queue + [a])[..|queue + [a]| - 1] == queue;
  }

  /** A queue none of whose entries carries the id is kept whole. */
  lemma {:induction false} WithoutAbsent(queue: seq<QueuedAction>, id: string)
    requires forall a :: a in queue ==> a.id != id
    ensures Without(queue, id) == queue
  {
    if queue != [] {
      var init := queue[..|queue| - 1];
      assert forall a :: a in init ==> a in queue;
      WithoutAbsent(init, id);
      assert queue == init + [queue[|queue| - 1]];
    }
  }

  class MobileStorage {
    var accessToken: Option<string>
    var refreshToken: Option<string>
    var user: Option<string>
    var offlineQueue: Option<seq<QueuedAction>>
    var cache: map<string, CacheEntry>

    constructor ()
      ensures accessToken.None? && refreshToken.None? && user.None? && offlineQueue.None? && cache == map[]
    {
      accessToken := None;
      refreshToken := None;
      user := None;
      offlineQueue := None;
      cache := map[];
    }

    /** saveAuth: the three session keys are written. */
    method SaveAuth(access: string, refresh: string, u: string)
      modifies this`accessToken, this`refreshToken, this`user
      ensures accessToken == Some(access) && refreshToken == Some(refresh) && user == Some(u)
    {
      accessToken := Some(access);
      refreshToken := Some(refresh);
      user := Some(u);
    }

    /** clearAuth: the three session keys are removed. */
    method ClearAuth()
      modifies this`accessToken, this`refreshToken, this`user
      ensures accessToken.None? && refreshToken.None? && user.None?
    {
      accessToken := None;
      refreshToken := None;
      user := None;
    }

    /** isLoggedIn: a stored access token that is truthy, that is, not the empty string. */
    function IsLoggedIn(): (b: bool)
      reads this`accessToken
      ensures b <==> accessToken.Some? && accessToken.value != ""
    {
      match accessToken
      case None => false
      case Some(t) => t != ""
    }

    /** getOfflineQueue: the stored queue, or [] when the key is absent. */
    function OfflineQueue(): (q: seq<QueuedAction>)
      reads this`offlineQueue
      ensures offlineQueue.None? ==> q == []
      ensures offlineQueue.Some? ==> q == offlineQueue.value
    {
      offlineQueue.GetOr([])
    }

    /** addToOfflineQueue: the action, stamped with the clock, goes to the end of the queue. */
    method AddToOfflineQueue(payload: string, now: nat, isoNow: string)
      modifies this`offlineQueue
      ensures offlineQueue == Some(old(OfflineQueue()) + [QueuedAction(DecimalString(now), isoNow, payload)])
    {
      var queue := OfflineQueue();
      queue := queue + [QueuedAction(DecimalString(now), isoNow, payload)];
      offlineQueue := Some(queue);
    }

    /** removeFromOfflineQueue: every entry with the id goes, the rest stay in order. */
    method RemoveFromOfflineQueue(id: string)
      modifies this`offlineQueue
      ensures offlineQueue == Some(Without(old(OfflineQueue()), id))
    {
      var queue := OfflineQueue();
      offlineQueue := Some(Without(queue, id));
    }

    /** clearOfflineQueue: an empty queue is stored. */
    method ClearOfflineQueue()
      modifies this`offlineQueue
      ensures offlineQueue == Some([])
    {
      offlineQueue := Some([]);
    }

    /** cacheData without SQLite: a falsy lifetime (none or 0) stores no expiry. */
    method CacheData(key: string, value: string, expiresIn: Option<int>, now: int)
      modifies this`cache
      ensures cache == old(cache)[key := CacheEntry(value, ExpiryOf(expiresIn, now))]
    {
      cache := cache[key := CacheEntry(value, ExpiryOf(expiresIn, now))];
    }

    /** getCachedData without SQLite: nothing once the expiry has passed; an expired entry stays stored. */
    function CachedData(key: string, now: int): (r: Option<string>)
      reads this`cache
      ensures r.Some? <==> key in cache && (cache[key].expiresAt.None? || cache[key].expiresAt.value >= now)
      ensures r.Some? ==> r.value == cache[key].value
    {
      if key !in cache then None
      else
        var e := cache[key];
        if e.expiresAt.Some? && e.expiresAt.value < now then None else Some(e.value)
    }
  }

  /** The expiry cacheData computes: Date.now() + expiresIn, unless expiresIn is falsy. */
  function ExpiryOf(expiresIn: Option<int>, now: int): (r: Option<int>)
    ensures r.None? <==> expiresIn.None? || expiresIn.value == 0
    ensures r.Some? ==> r.value == now + expiresIn.value
  {
    match expiresIn
    case Some(x) => if x == 0 then None else Some(now + x)
    case None => None
  }

  /**
   * Two actions enqueued in the same millisecond share an id, so removing
   * that id drops both of them together.
   */
  lemma {:induction false} SameMillisecondCollide(q0: seq<QueuedAction>, p1: string, p2: string, now: nat, iso1: string, iso2: string)
    requires forall a :: a in q0 ==> a.id != DecimalString(now)
    ensures var q2 := q0 + [QueuedAction(DecimalString(now), iso1, p1)] + [QueuedAction(DecimalString(now), iso2, p2)];
      Without(q2, DecimalString(now)) == q0
  {
    var a1 := QueuedAction(DecimalString(now), iso1, p1);
    var a2 := QueuedAction(DecimalString(now), iso2, p2);
    WithoutAppend(q0 + [a1], a2, DecimalString(now));
    WithoutAppend(q0, a1, DecimalString(now));
    WithoutAbsent(q0, DecimalString(now));
  }

  /** An entry added and then removed by its own id leaves a queue that never held that id as it was. */
  lemma {:induction false} AddThenRemove(q0: seq<QueuedAction>, a: QueuedAction)
    requires forall x :: x in q0 ==> x.id != a.id
    ensures Without(q0 + [a], a.id) == q0
  {
    WithoutAppend(q0, a, a.id);
    WithoutAbsent(q0, a.id);
  }

  /** A zero lifetime is no lifetime: the entry never expires. */
  lemma {:induction false} ZeroLifetimeNeverExpires(s: MobileStorage, key: string, value: string, now: int, later: int)
    requires s.cache == map[key := CacheEntry(value, ExpiryOf(Some(0), now))]
    ensures s.CachedData(key, later) == Some(value)
  {
  }
}
