/**
 * Properties of the guard that span several calls: the calling convention
 * "check, then record only when allowed", the moment a block engages, the
 * bound on stored counts, the release of a block, the independence of keys,
 * and the agreement between the status query and the check.
 */
module RateLimitProperties {
  import opened Wrappers
  import opened RateLimit

  // ---------------------------------------------------------------------------
  // The calling convention on one key
  // ---------------------------------------------------------------------------

  /** The outcome of one attempt: the check's answer and the slot afterwards. */
  datatype Step = Step(verdict: Verdict, slot: Option<RateLimitData>)

  /**
   * The clock readings of one attempt: `isAllowed` and the later
   * `recordAttempt` each read the clock for themselves.
   */
  datatype Moment = Moment(check: int, record: int)

  /** Check at `check`, and record at `record` only when the check allowed. */
  function Attempt(cfg: Config, slot: Option<RateLimitData>, check: int, record: int): Step {
    var d := Decide(cfg, slot, check);
    if d.verdict.allowed then Step(d.verdict, Recorded(d.slot, record)) else Step(d.verdict, d.slot)
  }

  /** The answers of a run of attempts at the given moments, and the slot at the end. */
  datatype Run = Run(verdicts: seq<Verdict>, slot: Option<RateLimitData>)

  function Session(cfg: Config, slot: Option<RateLimitData>, moments: seq<Moment>): (r: Run)
    ensures |r.verdicts| == |moments|
    decreases |moments|
  {
    if moments == [] then Run([], slot)
    else
      var s := Attempt(cfg, slot, moments[0].check, moments[0].record);
      var rest := Session(cfg, s.slot, moments[1..]);
      Run([s.verdict] + rest.verdicts, rest.slot)
  }

  /** No check comes more than a window after the previous attempt's record. */
  ghost predicate Paced(cfg: Config, moments: seq<Moment>) {
    forall i :: 0 < i < |moments| ==> moments[i].check - moments[i - 1].record <= cfg.windowMs
  }

  /**
   * From a record holding `k` attempts (the last recorded at `last`) and no
   * block, the remaining attempts are allowed with one fewer left each time,
   * and the one after them is denied with a block starting at its own check.
   */
  lemma {:induction false} SessionFromCount(cfg: Config, k: nat, last: int, moments: seq<Moment>)
    requires cfg.Valid() && 0 < k <= cfg.maxAttempts
    requires |moments| == cfg.maxAttempts - k + 1
    requires Paced(cfg, moments) && moments[0].check - last <= cfg.windowMs
    ensures var r := Session(cfg, Some(RateLimitData(k, last, None)), moments);
            var n := |moments| - 1;
            && (forall j :: 0 <= j < n ==>
                  r.verdicts[j] == Allow(cfg.maxAttempts - k - j - 1,
                                         Some((if j == 0 then last else moments[j - 1].record) + cfg.windowMs)))
            && r.verdicts[n] == Deny(moments[n].check + cfg.blockDurationMs)
            && r.slot == Some(RateLimitData(cfg.maxAttempts, if n == 0 then last else moments[n - 1].record,
                                            Some(moments[n].check + cfg.blockDurationMs)))
    decreases |moments|
  {
    var slot := Some(RateLimitData(k, last, None));
    var s := Attempt(cfg, slot, moments[0].check, moments[0].record);
    if k == cfg.maxAttempts {
      assert moments[1..] == [];
    } else {
      assert s == Step(Allow(cfg.maxAttempts - k - 1, Some(last + cfg.windowMs)),
                       Some(RateLimitData(k + 1, moments[0].record, None)));
      var tail := moments[1..];
      assert Paced(cfg, tail) by {
        forall i | 0 < i < |tail| ensures tail[i].check - tail[i - 1].record <= cfg.windowMs {
          assert tail[i] == moments[i + 1] && tail[i - 1] == moments[i];
        }
      }
      assert tail[0].check - moments[0].record <= cfg.windowMs by { assert tail[0] == moments[1]; }
      SessionFromCount(cfg, k + 1, moments[0].record, tail);
      var rest := Session(cfg, s.slot, tail);
      var r := Session(cfg, slot, moments);
      assert r.verdicts == [s.verdict] + rest.verdicts;
      var n := |moments| - 1;
      forall j | 0 < j < n
        ensures r.verdicts[j] == Allow(cfg.maxAttempts - k - j - 1, Some(moments[j - 1].record + cfg.windowMs))
      {
        assert r.verdicts[j] == rest.verdicts[j - 1];
        assert j - 1 == 0 ==> tail[0] == moments[1];
        assert j - 1 > 0 ==> tail[j - 2] == moments[j - 1];
      }
      assert r.verdicts[n] == rest.verdicts[n - 1];
      assert tail[n - 1] == moments[n];
      assert n - 1 > 0 ==> tail[n - 2] == moments[n - 1];
    }
  }

  /**
   * From no record, with each check at most a window after the previous
   * record, the first `maxAttempts` checks are allowed (the last of them with
   * none left) and the next one is denied, starting a block of
   * `blockDurationMs` from its own check.
   */
  lemma {:induction false} SessionFromFresh(cfg: Config, moments: seq<Moment>)
    requires cfg.Valid()
    requires |moments| == cfg.maxAttempts + 1 && Paced(cfg, moments)
    ensures var r := Session(cfg, None, moments);
            var n := cfg.maxAttempts;
            && r.verdicts[0] == Allow(n - 1, None)
            && (forall j :: 0 < j < n ==>
                  r.verdicts[j] == Allow(n - j - 1, Some(moments[j - 1].record + cfg.windowMs)))
            && r.verdicts[n] == Deny(moments[n].check + cfg.blockDurationMs)
            && r.slot == Some(RateLimitData(n, moments[n - 1].record, Some(moments[n].check + cfg.blockDurationMs)))
  {
    var s := Attempt(cfg, None, moments[0].check, moments[0].record);
    assert s == Step(Allow(cfg.maxAttempts - 1, None), Some(RateLimitData(1, moments[0].record, None)));
    var tail := moments[1..];
    assert Paced(cfg, tail) by {
      forall i | 0 < i < |tail| ensures tail[i].check - tail[i - 1].record <= cfg.windowMs {
        assert tail[i] == moments[i + 1] && tail[i - 1] == moments[i];
      }
    }
    assert tail[0] == moments[1];
    SessionFromCount(cfg, 1, moments[0].record, tail);
    var rest := Session(cfg, s.slot, tail);
    var r := Session(cfg, None, moments);
    assert r.verdicts == [s.verdict] + rest.verdicts;
    var n := cfg.maxAttempts;
    forall j | 0 < j < n
      ensures r.verdicts[j] == Allow(n - j - 1, Some(moments[j - 1].record + cfg.windowMs))
    {
      assert r.verdicts[j] == rest.verdicts[j - 1];
      assert j - 1 > 0 ==> tail[j - 2] == moments[j - 1];
    }
    assert r.verdicts[n] == rest.verdicts[n - 1];
    assert tail[n - 1] == moments[n];
    assert n - 1 > 0 ==> tail[n - 2] == moments[n - 1];
  }

  // ---------------------------------------------------------------------------
  // The bound on stored counts
  // ---------------------------------------------------------------------------

  /** A slot holds at most `maxAttempts` attempts. */
  predicate Bounded(cfg: Config, slot: Option<RateLimitData>) {
    Count(slot) <= cfg.maxAttempts
  }

  /**
   * Under the calling convention no run of attempts pushes a count past the
   * limit, whatever clock readings its checks and records get.
   */
  lemma {:induction false} SessionKeepsBound(cfg: Config, slot: Option<RateLimitData>, moments: seq<Moment>)
    requires cfg.Valid() && Bounded(cfg, slot)
    ensures Bounded(cfg, Session(cfg, slot, moments).slot)
    decreases |moments|
  {
    if moments != [] {
      var s := Attempt(cfg, slot, moments[0].check, moments[0].record);
      assert Bounded(cfg, s.slot);
      SessionKeepsBound(cfg, s.slot, moments[1..]);
    }
  }

  /** A record made after a denial, before the reported block ends, writes nothing. */
  lemma RecordAfterDenialIsNoOp(cfg: Config, slot: Option<RateLimitData>, check: int, record: int)
    requires cfg.Valid() && check >= 0
    requires !Decide(cfg, slot, check).verdict.allowed
    requires check <= record < Decide(cfg, slot, check).verdict.blockedUntil.value
    ensures Recorded(Decide(cfg, slot, check).slot, record) == Decide(cfg, slot, check).slot
  {
  }

  /** Every record stored under a key of an action kind holds at most that kind's `maxAttempts`. */
  ghost predicate StoreBounded(store: Store) {
    forall t, id :: GetKey(t, id) in store ==> store[GetKey(t, id)].attempts <= RateLimits(t).maxAttempts
  }

  /** One attempt under the calling convention keeps every key of the store within its own policy. */
  lemma AttemptKeepsStoreBounded(store: Store, t: ActionType, id: string, check: int, record: int)
    requires StoreBounded(store)
    ensures var key := GetKey(t, id);
            StoreBounded(WithSlot(store, key, Attempt(RateLimits(t), Lookup(store, key), check, record).slot))
  {
    var key := GetKey(t, id);
    var cfg := RateLimits(t);
    var slot := Lookup(store, key);
    var after := WithSlot(store, key, Attempt(cfg, slot, check, record).slot);
    assert Bounded(cfg, Attempt(cfg, slot, check, record).slot);
    forall t', id' | GetKey(t', id') in after
      ensures after[GetKey(t', id')].attempts <= RateLimits(t').maxAttempts
    {
      var k := GetKey(t', id');
      if k == key {
        KeyInjective(t', id', t, id);
        assert Lookup(after, k) == Attempt(cfg, slot, check, record).slot;
      } else {
        assert Lookup(after, k) == Lookup(store, k);
      }
    }
  }

  // ---------------------------------------------------------------------------
  // Release of a block and window reset
  // ---------------------------------------------------------------------------

  /**
   * A block raised by the check at `now` on a record whose last attempt is no
   * later than `now` denies every check before it ends, records made meanwhile
   * change nothing, and, when the block outlasts the window (as for both built-in policies),
   * the first check at or after its end finds the window expired and allows afresh.
   */
  lemma BlockThenRelease(cfg: Config, d: RateLimitData, now: int, during: int, later: int)
    requires cfg.Valid() && cfg.blockDurationMs > cfg.windowMs && now >= 0
    requires !IsBlocked(d, now) && d.lastAttempt <= now
    requires !Decide(cfg, Some(d), now).verdict.allowed
    requires now <= during < now + cfg.blockDurationMs <= later
    ensures var blocked := Decide(cfg, Some(d), now).slot;
            && Decide(cfg, blocked, during) == Decision(Deny(now + cfg.blockDurationMs), blocked)
            && Recorded(blocked, during) == blocked
            && Decide(cfg, blocked, later) == Decision(Allow(cfg.maxAttempts - 1, None), None)
  {
  }

  // ---------------------------------------------------------------------------
  // Independence of keys
  // ---------------------------------------------------------------------------

  /** Changing the record of one (action, identifier) leaves every other (action, identifier) as it was. */
  lemma KeysIndependent(store: Store, t1: ActionType, id1: string, t2: ActionType, id2: string,
                        slot: Option<RateLimitData>)
    requires t1 != t2 || id1 != id2
    ensures Lookup(WithSlot(store, GetKey(t1, id1), slot), GetKey(t2, id2)) == Lookup(store, GetKey(t2, id2))
  {
    if GetKey(t1, id1) == GetKey(t2, id2) {
      KeyInjective(t1, id1, t2, id2);
    }
  }

  /** A combined check changes no key but the e-mail key and, when an IP is given, the IP key. */
  lemma CheckedBothTouchesOnlyItsKeys(before: Store, after: Store, t: ActionType, email: string,
                                      ip: Option<string>, emailNow: int, ipNow: int, c: LimitCheck,
                                      key: string)
    requires CheckedBoth(before, after, t, email, ip, emailNow, ipNow, c)
    requires key != GetKey(t, EmailId(email))
    requires IpGiven(ip) ==> key != GetKey(t, IpId(ip.value))
    ensures Lookup(after, key) == Lookup(before, key)
  {
  }

  /** Right after `Clear`, a check of either action for that identifier starts afresh, even if it was blocked. */
  method ClearThenCheck(limiter: RateLimiter, t: ActionType, id: string, now: int) returns (v: Verdict)
    modifies limiter
    ensures v == Allow(RateLimits(t).maxAttempts - 1, None)
    ensures limiter.storage == old(limiter.storage) - {GetKey(Registration, id), GetKey(Login, id)}
  {
    limiter.Clear(id);
    v := limiter.IsAllowed(t, id, now);
  }

  // ---------------------------------------------------------------------------
  // Status and check
  // ---------------------------------------------------------------------------

  /**
   * The status query and the check agree on whether a window is running,
   * except at the one instant `now == lastAttempt + windowMs`, where the
   * status reports no time left but the check still counts the window.
   */
  lemma StatusAgreesWithCheck(limiter: RateLimiter, t: ActionType, id: string, now: int)
    requires GetKey(t, id) in limiter.storage
    ensures var d := limiter.storage[GetKey(t, id)];
            var s := limiter.GetStatus(t, id, now);
            && (s.remainingTime.Some? ==> !Expired(RateLimits(t), d, now))
            && (s.remainingTime.None? && !Expired(RateLimits(t), d, now) ==>
                  now == d.lastAttempt + RateLimits(t).windowMs)
  {
  }

  // ---------------------------------------------------------------------------
  // The login scenario: five attempts a minute apart, each recorded half a second
  // after its check, a sixth check, then a check 31 minutes later
  // ---------------------------------------------------------------------------

  lemma LoginScenario()
    ensures var cfg := RateLimits(Login);
            var moments := [Moment(0, 500), Moment(60_000, 60_500), Moment(120_000, 120_500),
                            Moment(180_000, 180_500), Moment(240_000, 240_500), Moment(300_000, 300_500)];
            var r := Session(cfg, None, moments);
            && (forall j :: 0 <= j < 5 ==> r.verdicts[j].allowed)
            && r.verdicts[5] == Deny(300_000 + 30 * 60_000)
            && Decide(cfg, r.slot, 300_000 + 31 * 60_000).verdict == Allow(4, None)
  {
    var cfg := RateLimits(Login);
    var moments := [Moment(0, 500), Moment(60_000, 60_500), Moment(120_000, 120_500),
                    Moment(180_000, 180_500), Moment(240_000, 240_500), Moment(300_000, 300_500)];
    SessionFromFresh(cfg, moments);
  }
}
