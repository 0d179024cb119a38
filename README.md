# Attempt-throttling guard of the ticket board, in Dafny

This project models the rate limiter of the ticket board application
(`lib/rateLimit.ts`). The limiter slows down repeated registration and login
attempts.

- It keeps one record per key: `{attempts, lastAttempt, blockedUntil?}`.
- The key is built from an action kind (`registration` or `login`) and an
  identifier (`email:<address>` or `ip:<address>`).
- Each action kind has a fixed policy: at most `maxAttempts` attempts per
  `windowMs`, then a block of `blockDurationMs`.
  - registration: 3 attempts, 1 hour window, 2 hour block.
  - login: 5 attempts, 15 minute window, 30 minute block.
- `isAllowed` is a five-way check. It also has side effects:
  - it deletes a record whose window has run out;
  - it writes a block when the limit is reached.
- `recordAttempt` counts one attempt unless the key is blocked.
- `getStatus` is a read-only view of a record.
- `clear` deletes both action kinds of one identifier.
- The helper functions combine the e-mail and IP dimensions into one
  allow/deny answer.

The model has three layers:

- `RateLimit.Decide`, `RateLimit.Recorded` and `RateLimit.WithSlot` are pure
  functions. They give the effect of a check and of an accounting on the
  single record under one key, and how the store changes.
- `RateLimit.RateLimiter` is a class whose `storage` field is a
  `map<string, RateLimitData>`. Its methods change that map in place, as the
  original object does. Each method is proved to produce exactly the new map
  that the pure layer describes.
- The module `RateLimitProperties` proves properties that span several calls.
  The main one is the calling convention "check, then record only when
  allowed". From no record, the first `maxAttempts` checks allow and the next
  one denies, and the block starts at that check's time. Other lemmas prove:
  - the bound on stored counts;
  - the release of a block into a fresh window;
  - that different keys do not affect each other;
  - a concrete login scenario.

Time is an integer number of milliseconds, passed in as `now`. What would be a
`Date` in the original is that integer too. Every `isAllowed` and every
`recordAttempt` reads the clock for itself, so each of them gets its own time
parameter: a combined helper takes one time for the e-mail key and one for the
IP key, and an attempt in a session has one time for its check and one for its
record (`RateLimitProperties.Moment`). JavaScript truthiness is written
out:

- `blockedUntil` equal to 0 counts as absent (`Truthy`);
- an empty IP string counts as no IP (`IpGiven`).

`recordAttempt` does not reset an expired window itself. It adds one to
whatever count is stored (line 170) and relies on an earlier `isAllowed`
having deleted the stale record. `Recorded` does just
that; the expired-window reset lives only in `Decide`.

`getStatus` applies its window test as `lastAttempt + windowMs > now`.
`isAllowed` treats the window as expired only when
`now - lastAttempt > windowMs`. So at the single instant
`now == lastAttempt + windowMs`, the status shows no time left while the check
still counts the window. `RateLimitProperties.StatusAgreesWithCheck` states
this exactly.

## Model

| member | source | states |
|---|---|---|
| `RateLimit.RateLimits` | lib/rateLimit.ts:17-28 | The two built-in policies. Registration allows 3 attempts per hour, then blocks for 2 hours. Login allows 5 per 15 minutes, then blocks for 30 minutes. Both policies are valid, and in both the block outlasts the window. |
| `RateLimit.GetKey` | lib/rateLimit.ts:90-92 | A key is the action's prefix followed by the identifier. Its length is the prefix length plus the identifier length. |
| `RateLimit.KeyInjective` | lib/rateLimit.ts:90-92 | Equal keys imply the same action kind and the same identifier. The `registration` and `login` prefixes never collide. |
| `RateLimit.EmailId` | lib/rateLimit.ts:233-234 | The e-mail identifier `email:<e>`, used at lines 234, 247, 260 and 267. It starts with `e`, and the e-mail is recovered from it after the 6-character prefix. |
| `RateLimit.IpId` | lib/rateLimit.ts:235-236 | The IP identifier `ip:<ip>`, used at lines 236, 249, 262 and 269. It starts with `i`, and the IP is recovered from it after the 3-character prefix. |
| `RateLimit.IpGiven` | lib/rateLimit.ts:235-237 | The truthiness test on the IP (`ip ?` at lines 235 and 248, `if (ip)` at lines 261 and 268). An absent IP or `""` means no IP; any non-empty string is an IP. |
| `RateLimit.Truthy` | lib/rateLimit.ts:116-117 | The truthiness of `blockedUntil` (lines 117, 164 and 222). An absent value or `0` means no block; any other number is a block time. |
| `RateLimit.IsBlocked` | lib/rateLimit.ts:116-117 | The block test, also at line 164. True only when a block time is stored and `now` is before it. A missing block or a block time of `0` never blocks. Any other stored block time blocks until it is reached. |
| `RateLimit.Expired` | lib/rateLimit.ts:124-125 | The window has run out exactly when `lastAttempt + windowMs < now`, so at `now == lastAttempt + windowMs` the window still counts. |
| `RateLimit.Count` | lib/rateLimit.ts:169-170 | The stored count of line 170: 0 when there is no record, else the record's attempts. |
| `RateLimit.NotChecked` | lib/rateLimit.ts:235-237 | The answer `{ allowed: true }` used when no IP is given (also at line 250). It allows and carries no remaining attempts, no block and no reset time. |
| `RateLimit.IdentifiersDistinct` | lib/rateLimit.ts:233-236 | An `email:` identifier never equals an `ip:` identifier. Each prefix form determines the string it wraps. |
| `RateLimit.DimensionKeysDiffer` | lib/rateLimit.ts:233-237 | For one action, the e-mail record and the IP record are always different keys. |
| `RateLimit.WithSlot` | lib/rateLimit.ts:52-88 | The store after a put or a delete. The key then holds exactly the given slot and every other key is unchanged. Writing back what was read changes nothing. |
| `RateLimit.Decide` | lib/rateLimit.ts:106-150 | Allowed iff the record is fresh (absent, or unblocked with an expired window) or unblocked and under the limit. A fresh check allows with `maxAttempts - 1` left and drops the record. In a running window: `maxAttempts - attempts - 1` attempts left, in `[0, maxAttempts - 1]`, and the reset time is `lastAttempt + windowMs`. Every denial is backed by a stored block that it reports. That block is the active one, or else `now + blockDurationMs` in the future. Count and time stay unchanged. |
| `RateLimit.Recorded` | lib/rateLimit.ts:160-175 | Nothing is written iff a block is in effect. Any write adds one attempt (1 when there was no record) and stamps `now`. It never changes `blockedUntil`. |
| `RateLimit.RateLimiter.constructor` | lib/rateLimit.ts:34-50 | A new limiter starts with an empty store. |
| `RateLimit.RateLimiter.SetItem` | lib/rateLimit.ts:52-62 | Stores the record under the key and changes nothing else. |
| `RateLimit.RateLimiter.GetItem` | lib/rateLimit.ts:64-76 | Returns a record iff the key is stored, and then exactly that record. |
| `RateLimit.RateLimiter.RemoveItem` | lib/rateLimit.ts:78-88 | Deletes the key and changes nothing else. |
| `RateLimit.RateLimiter.IsAllowed` | lib/rateLimit.ts:97-151 | Answers as `Decide` on the stored record of the action's key. Afterwards only that key has changed: deleted, given a new block, or left unchanged. |
| `RateLimit.RateLimiter.RecordAttempt` | lib/rateLimit.ts:156-176 | The key's record becomes `Recorded` of the old one and no other key changes. Under an active block nothing changes. |
| `RateLimit.RateLimiter.Clear` | lib/rateLimit.ts:181-184 | Deletes exactly the registration key and the login key of the identifier. Afterwards no key of that identifier is stored. |
| `RateLimit.RateLimiter.GetStatus` | lib/rateLimit.ts:189-226 | Always reports the policy's limits. An absent record reports no attempts, no remaining time and no block. For a stored record: its attempts; a remaining time iff `lastAttempt + windowMs > now`, equal to `lastAttempt + windowMs - now` and positive; its block only when that block is truthy. As a function it cannot change the store. |
| `RateLimit.CheckLimit` | lib/rateLimit.ts:233-257 | Checks the e-mail key at its own time, and the IP key at its own time only when an IP is given. Return value: allowed iff the e-mail check allows and (no IP or the IP check allows). The IP check sees the store as it was, because the e-mail check cannot touch the IP key. Both sets of side effects happen. |
| `RateLimit.CheckRegistrationLimit` | lib/rateLimit.ts:233-244 | The combined check for registration. |
| `RateLimit.CheckLoginLimit` | lib/rateLimit.ts:246-257 | The combined check for login. |
| `RateLimit.RecordBoth` | lib/rateLimit.ts:259-271 | Always accounts the e-mail key at its own time. Accounts the IP key at its own time only when an IP is given, based on its own earlier record. |
| `RateLimit.RecordRegistrationAttempt` | lib/rateLimit.ts:259-264 | Combined accounting for registration. |
| `RateLimit.RecordLoginAttempt` | lib/rateLimit.ts:266-271 | Combined accounting for login. |
| `RateLimitProperties.Session` | lib/rateLimit.ts:111-175 | A run of check-then-record-if-allowed attempts, each checked at its own time and recorded at a later clock reading, gives one answer per attempt. |
| `RateLimitProperties.SessionFromCount` | lib/rateLimit.ts:131-175 | Start: `k` attempts stored, no block, each check at most a window after the previous record. The next `maxAttempts - k` checks allow, with one fewer attempt left each time and the reset time of the previous record. The following check denies with a block from its own check time. The count stops at `maxAttempts` and the last attempt time is the last record's. |
| `RateLimitProperties.SessionFromFresh` | lib/rateLimit.ts:111-175 | From no record, each check at most a window after the previous record: checks 1 to `maxAttempts` allow (the Nth with 0 left) and check `maxAttempts + 1` denies with `blockedUntil` equal to its check time plus `blockDurationMs`. The stored count is then exactly `maxAttempts`, with the last record's time. |
| `RateLimitProperties.SessionKeepsBound` | lib/rateLimit.ts:131-175 | Under check-then-record-if-allowed, whatever the check and record times, a stored count never exceeds `maxAttempts`. |
| `RateLimitProperties.RecordAfterDenialIsNoOp` | lib/rateLimit.ts:116-167 | With time non-negative, a record made at or after a denial's check and before the block it reports ends writes nothing. |
| `RateLimitProperties.AttemptKeepsStoreBounded` | lib/rateLimit.ts:90-175 | One attempt on any (action, identifier), at any check and record times, keeps every stored key within its own action's `maxAttempts`. |
| `RateLimitProperties.BlockThenRelease` | lib/rateLimit.ts:116-140 | Setup: a check opens a block on a record whose last attempt is no later than that check, and the block outlasts the window (true of both built-in policies). Until the block ends, checks deny with that same `blockedUntil` and records change nothing. The first check at or after its end allows afresh and drops the record. |
| `RateLimitProperties.KeysIndependent` | lib/rateLimit.ts:90-92 | Changing the record of one (action, identifier) leaves the record of every other pair as it was. |
| `RateLimitProperties.CheckedBothTouchesOnlyItsKeys` | lib/rateLimit.ts:233-257 | A combined check changes no key except the e-mail key and, when an IP is given, the IP key. |
| `RateLimitProperties.ClearThenCheck` | lib/rateLimit.ts:181-184 | Right after `clear`, a check for that identifier allows with a fresh count, even if it was blocked. |
| `RateLimitProperties.StatusAgreesWithCheck` | lib/rateLimit.ts:124-215 | A remaining time in the status means the check still counts the window. The two disagree only when `now == lastAttempt + windowMs`. |
| `RateLimitProperties.LoginScenario` | lib/rateLimit.ts:23-27 | Login policy, checks one minute apart from no record, each allowed one recorded half a second after its check: five checks allow and the sixth denies until 30 minutes after it. A check 31 minutes after the sixth allows with 4 left. |

## Left out

- Choosing between `localStorage` and an in-memory object, and the JSON
  encoding of records (lines 34-88). This is browser I/O; the store is an
  in-memory map.
- The fail-open error handling of storage access. A failed read returning
  `null` and a failed write or delete being ignored depend on the browser
  storage, so they are not modelled.
- `Date.now()` and `Date` values. Time is an integer passed in as `now`, and
  the reported times are those integers.
- Floating-point `number`: counts and times are unbounded integers. Real
  millisecond timestamps lie far inside the exactly representable range.
- The module-level singleton (line 230). The helpers take an explicitly
  constructed `RateLimiter`.
- `getClientIP` (lines 274-283): a fetch from an external web service.
- Interleavings are not modelled. With `localStorage`, several browser tabs
  share the same records, and each tab runs its own read-modify-write in
  `isAllowed` and `recordAttempt`. A caller's check and its later record are
  also separated by asynchronous work, so other submissions can run between
  them. The model covers one sequence of calls on one limiter.
- The React components, Firestore access and the authentication context: UI
  and service glue outside the guard.
