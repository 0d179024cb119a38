/**
 * The attempt-throttling guard: one record per key, two built-in policies,
 * a five-way check that may delete or block a record, attempt accounting,
 * introspection, reset, and the helpers that combine the e-mail and IP
 * dimensions. Time is an integer number of milliseconds supplied by the caller.
 */
module RateLimit {
  import opened Wrappers

  // ---------------------------------------------------------------------------
  // Data model
  // ---------------------------------------------------------------------------

  /** The two throttled actions. */
  datatype ActionType = Registration | Login

  /** A throttling policy. */
  datatype Config = Config(maxAttempts: int, windowMs: int, blockDurationMs: int)
  {
    /** Every bound is positive. */
    predicate Valid() {
      maxAttempts > 0 && windowMs > 0 && blockDurationMs > 0
    }
  }

  /** The built-in policies. */
  function RateLimits(t: ActionType): (c: Config)
    ensures c.Valid()
    // a lock-out always outlasts the window it was raised in
    ensures c.blockDurationMs > c.windowMs
    ensures t == Registration ==>
      c.maxAttempts == 3 && c.windowMs == 3_600_000 && c.blockDurationMs == 7_200_000
    ensures t == Login ==>
      c.maxAttempts == 5 && c.windowMs == 900_000 && c.blockDurationMs == 1_800_000
  {
    match t
    case Registration => Config(3, 60 * 60 * 1000, 2 * 60 * 60 * 1000)
    case Login => Config(5, 15 * 60 * 1000, 30 * 60 * 1000)
  }

  /** The record kept per key. */
  datatype RateLimitData = RateLimitData(attempts: nat, lastAttempt: int, blockedUntil: Option<int>)

  /** The answer of a check. */
  datatype Verdict = Verdict(
    allowed: bool,
    remainingAttempts: Option<int>,
    blockedUntil: Option<int>,
    resetTime: Option<int>)

  function Allow(remaining: int, resetTime: Option<int>): Verdict {
    Verdict(true, Some(remaining), None, resetTime)
  }

  function Deny(until: int): Verdict {
    Verdict(false, None, Some(until), None)
  }

  /** The bare `{ allowed: true }` that stands in for an IP check that was not made. */
  function NotChecked(): (v: Verdict)
    ensures v.allowed
    ensures v.remainingAttempts.None? && v.blockedUntil.None? && v.resetTime.None?
  {
    Verdict(true, None, None, None)
  }

  /** The answer of a status query. */
  datatype Status = Status(
    attempts: nat,
    maxAttempts: int,
    windowMs: int,
    remainingTime: Option<int>,
    blockedUntil: Option<int>)

  // ---------------------------------------------------------------------------
  // Keys
  // ---------------------------------------------------------------------------

  function TypeName(t: ActionType): string {
    match t
    case Registration => "registration"
    case Login => "login"
  }

  function KeyPrefix(t: ActionType): string {
    "rate_limit_" + TypeName(t) + "_"
  }

  /** The storage key of an action kind and an identifier. */
  function GetKey(t: ActionType, identifier: string): (key: string)
    ensures |key| == |KeyPrefix(t)| + |identifier|
  {
    KeyPrefix(t) + identifier
  }

  /** Different actions or identifiers never share a record. */
  lemma KeyInjective(t1: ActionType, id1: string, t2: ActionType, id2: string)
    requires GetKey(t1, id1) == GetKey(t2, id2)
    ensures t1 == t2 && id1 == id2
  {
    // "registration" and "login" already differ at their first letter
    assert GetKey(t1, id1)[11] == TypeName(t1)[0];
    assert GetKey(t2, id2)[11] == TypeName(t2)[0];
    var n := |KeyPrefix(t1)|;
    assert GetKey(t1, id1)[n..] == id1;
    assert GetKey(t2, id2)[n..] == id2;
  }

  /** The identifier of the e-mail dimension. */
  function EmailId(email: string): (id: string)
    ensures |id| == |email| + 6 && id[0] == 'e' && id[6..] == email
  {
    "email:" + email
  }

  /** The identifier of the IP dimension. */
  function IpId(ip: string): (id: string)
    ensures |id| == |ip| + 3 && id[0] == 'i' && id[3..] == ip
  {
    "ip:" + ip
  }

  /** `ip ? … : …`: an absent or empty IP is not checked. */
  predicate IpGiven(ip: Option<string>)
    ensures ip.None? ==> !IpGiven(ip)
    ensures ip == Some("") ==> !IpGiven(ip)
    ensures ip.Some? && |ip.value| > 0 ==> IpGiven(ip)
  {
    ip.Some? && ip.value != ""
  }

  /** The e-mail and IP identifiers never collide, and each determines its string. */
  lemma IdentifiersDistinct(e1: string, e2: string, ip1: string, ip2: string)
    ensures EmailId(e1) != IpId(ip1)
    ensures EmailId(e1) == EmailId(e2) ==> e1 == e2
    ensures IpId(ip1) == IpId(ip2) ==> ip1 == ip2
  {
  }

  /** The e-mail record and the IP record of one action are different records. */
  lemma DimensionKeysDiffer(t: ActionType, email: string, ip: string)
    ensures GetKey(t, EmailId(email)) != GetKey(t, IpId(ip))
  {
    if GetKey(t, EmailId(email)) == GetKey(t, IpId(ip)) {
      KeyInjective(t, EmailId(email), t, IpId(ip));
      IdentifiersDistinct(email, email, ip, ip);
    }
  }

  // ---------------------------------------------------------------------------
  // The store as a map, and one slot of it
  // ---------------------------------------------------------------------------

  type Store = map<string, RateLimitData>

  /** The record under `key`, if any. */
  function Lookup(store: Store, key: string): Option<RateLimitData> {
    if key in store then Some(store[key]) else None
  }

  /** The store with the slot under `key` replaced (None deletes it). */
  function WithSlot(store: Store, key: string, slot: Option<RateLimitData>): (r: Store)
    ensures Lookup(r, key) == slot
    ensures forall k :: k != key ==> Lookup(r, k) == Lookup(store, k)
    // writing back what was read changes nothing
    ensures slot == Lookup(store, key) ==> r == store
  {
    match slot
    case Some(d) => store[key := d]
    case None => store - {key}
  }

  // ---------------------------------------------------------------------------
  // The check and the accounting, on one slot
  // ---------------------------------------------------------------------------

  /** Truthiness of an optional timestamp: absent and 0 are both false. */
  predicate Truthy(o: Option<int>)
    ensures o.None? ==> !Truthy(o)
    ensures o == Some(0) ==> !Truthy(o)
    ensures o.Some? && o.value != 0 ==> Truthy(o)
  {
    o.Some? && o.value != 0
  }

  /** A block is in effect at `now`. */
  predicate IsBlocked(d: RateLimitData, now: int)
    ensures IsBlocked(d, now) ==> d.blockedUntil.Some? && now < d.blockedUntil.value
    ensures d.blockedUntil.None? || d.blockedUntil == Some(0) ==> !IsBlocked(d, now)
    ensures d.blockedUntil.Some? && d.blockedUntil.value != 0 && now < d.blockedUntil.value ==> IsBlocked(d, now)
  {
    Truthy(d.blockedUntil) && now < d.blockedUntil.value
  }

  /** More than a window has passed since the last accounted attempt. */
  predicate Expired(cfg: Config, d: RateLimitData, now: int)
    // the window ends strictly before `now`
    ensures Expired(cfg, d, now) <==> d.lastAttempt + cfg.windowMs < now
  {
    now - d.lastAttempt > cfg.windowMs
  }

  /** A check at `now` starts from scratch: no record, or an unblocked one whose window ran out. */
  predicate Fresh(cfg: Config, slot: Option<RateLimitData>, now: int) {
    slot.None? || (!IsBlocked(slot.value, now) && Expired(cfg, slot.value, now))
  }

  /** What a check answers and what it leaves in the slot. */
  datatype Decision = Decision(verdict: Verdict, slot: Option<RateLimitData>)

  /** The check of one record at `now` under policy `cfg`. */
  function Decide(cfg: Config, slot: Option<RateLimitData>, now: int): (r: Decision)
    // allowed exactly when fresh, or unblocked and still under the limit
    ensures r.verdict.allowed <==>
      Fresh(cfg, slot, now) || (!IsBlocked(slot.value, now) && slot.value.attempts < cfg.maxAttempts)
    // a fresh check forgets the old count and drops the record
    ensures Fresh(cfg, slot, now) ==> r == Decision(Allow(cfg.maxAttempts - 1, None), None)
    // inside a running window: the attempts left and the end of the window, record untouched
    ensures r.verdict.allowed && !Fresh(cfg, slot, now) ==>
      r.slot == slot &&
      r.verdict == Allow(cfg.maxAttempts - slot.value.attempts - 1,
                         Some(slot.value.lastAttempt + cfg.windowMs))
    ensures cfg.Valid() && r.verdict.allowed ==>
      0 <= r.verdict.remainingAttempts.value < cfg.maxAttempts
    // a denial is backed by a stored block that it reports; counter and time stay
    ensures !r.verdict.allowed ==>
      slot.Some? && r.slot.Some? && r.slot.value.blockedUntil.Some? &&
      r.verdict == Deny(r.slot.value.blockedUntil.value) &&
      r.slot.value.attempts == slot.value.attempts &&
      r.slot.value.lastAttempt == slot.value.lastAttempt
    // an active block is kept as it is; otherwise the block starts now
    ensures !r.verdict.allowed ==>
      r.slot.value.blockedUntil ==
        if IsBlocked(slot.value, now) then slot.value.blockedUntil
        else Some(now + cfg.blockDurationMs)
    ensures cfg.Valid() && !r.verdict.allowed ==> now < r.slot.value.blockedUntil.value
  {
    if slot.None? then
      Decision(Allow(cfg.maxAttempts - 1, None), slot)
    else
      var data := slot.value;
      if Truthy(data.blockedUntil) && now < data.blockedUntil.value then
        Decision(Deny(data.blockedUntil.value), slot)
      else if now - data.lastAttempt > cfg.windowMs then
        Decision(Allow(cfg.maxAttempts - 1, None), None)
      else if data.attempts >= cfg.maxAttempts then
        var blockUntil := now + cfg.blockDurationMs;
        Decision(Deny(blockUntil), Some(data.(blockedUntil := Some(blockUntil))))
      else
        Decision(Allow(cfg.maxAttempts - data.attempts - 1, Some(data.lastAttempt + cfg.windowMs)), slot)
  }

  /** The count a slot carries (0 for no record). */
  function Count(slot: Option<RateLimitData>): (c: nat)
    ensures slot.None? ==> c == 0
    ensures slot.Some? ==> c == slot.value.attempts
  {
    if slot.Some? then slot.value.attempts else 0
  }

  /** The slot after accounting one attempt at `now`. */
  function Recorded(slot: Option<RateLimitData>, now: int): (r: Option<RateLimitData>)
    ensures r.Some?
    // nothing is written exactly when a block is in effect
    ensures r == slot <==> slot.Some? && IsBlocked(slot.value, now)
    // any write is one more attempt, stamped now
    ensures r != slot ==> r.value.attempts == Count(slot) + 1 && r.value.lastAttempt == now
    // accounting never touches the block, past or present
    ensures r.value.blockedUntil == if slot.Some? then slot.value.blockedUntil else None
  {
    if slot.Some? && Truthy(slot.value.blockedUntil) && now < slot.value.blockedUntil.value then
      slot
    else
      Some(RateLimitData(
        Count(slot) + 1,
        now,
        if slot.Some? then slot.value.blockedUntil else None))
  }

  // ---------------------------------------------------------------------------
  // The limiter object
  // ---------------------------------------------------------------------------

  class RateLimiter {
    var storage: Store

    /** A limiter over an empty in-memory store. */
    constructor ()
      ensures storage == map[]
    {
      storage := map[];
    }

    method SetItem(key: string, value: RateLimitData)
      modifies this
      ensures storage == old(storage)[key := value]
    {
      storage := storage[key := value];
    }

    function GetItem(key: string): (r: Option<RateLimitData>)
      reads this
      ensures r.Some? <==> key in storage
      ensures r.Some? ==> r.value == storage[key]
    {
      Lookup(storage, key)
    }

    method RemoveItem(key: string)
      modifies this
      ensures storage == old(storage) - {key}
    {
      storage := storage - {key};
    }

    /** Check an action; may drop an expired record or start a block. */
    method IsAllowed(t: ActionType, identifier: string, now: int) returns (v: Verdict)
      modifies this
      ensures var key := GetKey(t, identifier);
              var d := Decide(RateLimits(t), Lookup(old(storage), key), now);
              v == d.verdict && storage == WithSlot(old(storage), key, d.slot)
    {
      var config := RateLimits(t);
      var key := GetKey(t, identifier);
      var data := GetItem(key);

      if data.None? {
        return Allow(config.maxAttempts - 1, None);
      }
      var d := data.value;

      if Truthy(d.blockedUntil) && now < d.blockedUntil.value {
        return Deny(d.blockedUntil.value);
      }

      if now - d.lastAttempt > config.windowMs {
        RemoveItem(key);
        return Allow(config.maxAttempts - 1, None);
      }

      if d.attempts >= config.maxAttempts {
        var blockUntil := now + config.blockDurationMs;
        SetItem(key, d.(blockedUntil := Some(blockUntil)));
        return Deny(blockUntil);
      }

      v := Allow(config.maxAttempts - d.attempts - 1, Some(d.lastAttempt + config.windowMs));
    }

    /** Account one attempt unless the key is blocked. */
    method RecordAttempt(t: ActionType, identifier: string, now: int)
      modifies this
      ensures var key := GetKey(t, identifier);
              storage == WithSlot(old(storage), key, Recorded(Lookup(old(storage), key), now))
    {
      var key := GetKey(t, identifier);
      var data := GetItem(key);

      if data.Some? && Truthy(data.value.blockedUntil) && now < data.value.blockedUntil.value {
        return;
      }

      var newData := RateLimitData(
        (if data.Some? then data.value.attempts else 0) + 1,
        now,
        if data.Some? then data.value.blockedUntil else None);
      SetItem(key, newData);
    }

    /** Forget both action kinds of one identifier. */
    method Clear(identifier: string)
      modifies this
      ensures storage == old(storage) - {GetKey(Registration, identifier), GetKey(Login, identifier)}
      ensures forall t :: GetKey(t, identifier) !in storage
    {
      RemoveItem(GetKey(Registration, identifier));
      RemoveItem(GetKey(Login, identifier));
    }

    /** The record as seen at `now`, without blocking anything. */
    function GetStatus(t: ActionType, identifier: string, now: int): (s: Status)
      reads this
      ensures s.maxAttempts == RateLimits(t).maxAttempts && s.windowMs == RateLimits(t).windowMs
      ensures GetKey(t, identifier) !in storage ==>
        s.attempts == 0 && s.remainingTime.None? && s.blockedUntil.None?
      ensures GetKey(t, identifier) in storage ==>
        var d := storage[GetKey(t, identifier)];
        && s.attempts == d.attempts
        && (s.remainingTime.Some? <==> d.lastAttempt + RateLimits(t).windowMs > now)
        && (s.remainingTime.Some? ==> s.remainingTime.value == d.lastAttempt + RateLimits(t).windowMs - now)
        && s.blockedUntil == (if Truthy(d.blockedUntil) then d.blockedUntil else None)
      ensures s.remainingTime.Some? ==> s.remainingTime.value > 0
    {
      var config := RateLimits(t);
      var data := GetItem(GetKey(t, identifier));
      if data.None? then
        Status(0, config.maxAttempts, config.windowMs, None, None)
      else
        var d := data.value;
        var remainingTime :=
          if d.lastAttempt + config.windowMs > now then Some(d.lastAttempt + config.windowMs - now) else None;
        Status(d.attempts, config.maxAttempts, config.windowMs, remainingTime,
               if Truthy(d.blockedUntil) then d.blockedUntil else None)
    }
  }

  // ---------------------------------------------------------------------------
  // Helpers combining the e-mail and IP dimensions
  // ---------------------------------------------------------------------------

  /** The combined answer, with the answer of each dimension. */
  datatype LimitCheck = LimitCheck(allowed: bool, emailLimit: Verdict, ipLimit: Verdict)

  /**
   * Each check and each record reads the clock for itself, so the e-mail
   * dimension and the IP dimension of one helper call each get their own time.
   */

  /**
   * `after` is `before` checked on the e-mail key and, when an IP is given, on
   * the IP key; `c` is allowed exactly when every dimension checked allows.
   */
  ghost predicate CheckedBoth(before: Store, after: Store, t: ActionType, email: string,
                              ip: Option<string>, emailNow: int, ipNow: int, c: LimitCheck)
  {
    var cfg := RateLimits(t);
    var ek := GetKey(t, EmailId(email));
    var e := Decide(cfg, Lookup(before, ek), emailNow);
    var mid := WithSlot(before, ek, e.slot);
    && c.emailLimit == e.verdict
    && if IpGiven(ip) then
         var ik := GetKey(t, IpId(ip.value));
         // the IP record is read as it was before: the e-mail check cannot touch it
         var i := Decide(cfg, Lookup(before, ik), ipNow);
         && c.ipLimit == i.verdict
         && c.allowed == (e.verdict.allowed && i.verdict.allowed)
         && after == WithSlot(mid, ik, i.slot)
       else
         && c.ipLimit == NotChecked()
         && c.allowed == e.verdict.allowed
         && after == mid
  }

  /** `after` is `before` with the e-mail key, and the IP key when given, accounted. */
  ghost predicate RecordedBoth(before: Store, after: Store, t: ActionType, email: string,
                               ip: Option<string>, emailNow: int, ipNow: int)
  {
    var ek := GetKey(t, EmailId(email));
    var mid := WithSlot(before, ek, Recorded(Lookup(before, ek), emailNow));
    if IpGiven(ip) then
      var ik := GetKey(t, IpId(ip.value));
      after == WithSlot(mid, ik, Recorded(Lookup(before, ik), ipNow))
    else
      after == mid
  }

  method CheckLimit(limiter: RateLimiter, t: ActionType, email: string, ip: Option<string>, emailNow: int, ipNow: int)
    returns (c: LimitCheck)
    modifies limiter
    ensures CheckedBoth(old(limiter.storage), limiter.storage, t, email, ip, emailNow, ipNow, c)
  {
    var emailCheck := limiter.IsAllowed(t, EmailId(email), emailNow);
    var ipCheck := NotChecked();
    if IpGiven(ip) {
      DimensionKeysDiffer(t, email, ip.value);
      ipCheck := limiter.IsAllowed(t, IpId(ip.value), ipNow);
    }
    c := LimitCheck(emailCheck.allowed && ipCheck.allowed, emailCheck, ipCheck);
  }

  method CheckRegistrationLimit(limiter: RateLimiter, email: string, ip: Option<string>, emailNow: int, ipNow: int)
    returns (c: LimitCheck)
    modifies limiter
    ensures CheckedBoth(old(limiter.storage), limiter.storage, Registration, email, ip, emailNow, ipNow, c)
  {
    c := CheckLimit(limiter, Registration, email, ip, emailNow, ipNow);
  }

  method CheckLoginLimit(limiter: RateLimiter, email: string, ip: Option<string>, emailNow: int, ipNow: int)
    returns (c: LimitCheck)
    modifies limiter
    ensures CheckedBoth(old(limiter.storage), limiter.storage, Login, email, ip, emailNow, ipNow, c)
  {
    c := CheckLimit(limiter, Login, email, ip, emailNow, ipNow);
  }

  method RecordBoth(limiter: RateLimiter, t: ActionType, email: string, ip: Option<string>, emailNow: int, ipNow: int)
    modifies limiter
    ensures RecordedBoth(old(limiter.storage), limiter.storage, t, email, ip, emailNow, ipNow)
  {
    limiter.RecordAttempt(t, EmailId(email), emailNow);
    if IpGiven(ip) {
      DimensionKeysDiffer(t, email, ip.value);
      limiter.RecordAttempt(t, IpId(ip.value), ipNow);
    }
  }

  method RecordRegistrationAttempt(limiter: RateLimiter, email: string, ip: Option<string>, emailNow: int, ipNow: int)
    modifies limiter
    ensures RecordedBoth(old(limiter.storage), limiter.storage, Registration, email, ip, emailNow, ipNow)
  {
    RecordBoth(limiter, Registration, email, ip, emailNow, ipNow);
  }

  method RecordLoginAttempt(limiter: RateLimiter, email: string, ip: Option<string>, emailNow: int, ipNow: int)
    modifies limiter
    ensures RecordedBoth(old(limiter.storage), limiter.storage, Login, email, ip, emailNow, ipNow)
  {
    RecordBoth(limiter, Login, email, ip, emailNow, ipNow);
  }
}
