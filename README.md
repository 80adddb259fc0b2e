# bbtelgo core, modelled in Dafny

bbtelgo is a skeleton for Telegram bots written in Go. Every update the bot
receives goes through a handler. The handler:

- asks a Redis-backed limiter whether the sender may go on;
- replies "You are banned." when the limiter says no;
- otherwise stores the sender and the message in MongoDB.

Around that sit:

- a command router for private chats;
- a localisation bundle with `{name}` placeholders;
- a levelled logger that writes to the console and to a rotating file;
- configuration read from the environment.

The cache layer is the largest part. It holds a fixed-window and a
sliding-window rate limiter, a token lock released by a compare-and-delete
script, and prefix scans and deletes.

This project models each of those parts and proves what each promises.
The parts that touch the outside world are modelled as follows:

- **Redis** is a map from key to entry. An entry is a string or a sorted
  set, with an optional expiry in milliseconds (`RedisServer`). Each
  pipeline or script is one step on that map (`Cache`). The client,
  `Cache.CacheClient`, holds the map and whether the store is reachable.
- **A MongoDB collection** is an oracle object, `Bson.Collection`. It
  records every operation sent to it and answers each one with a function
  of the earlier operations. The repositories are classes that send
  operations to it and read the replies.
- **The logger** is a class with the logger's fields and its output
  sequences (`Logx.Logger`).
- **Clocks, fresh object IDs, file sizes, caller positions and timestamps**
  are parameters.
- **Time** is an integer number of nanoseconds since the Unix epoch, as Go
  counts it. 64-bit overflow is written out where Go would wrap (`GoInt`).

Modules follow the program's packages:

| module | models |
|---|---|
| `RedisServer`, `Cache` | `internal/db/redis.go` and the Redis server's commands |
| `CacheProps`, `SlidingProps`, `SlidingBound` | the limiter and lock properties |
| `I18n` | `internal/i18n/i18n.go` |
| `PrivateHandler` | `internal/handlers/private/private-handler.go` |
| `Handler` | `internal/handlers/handler.go` |
| `Logx` | `internal/logx/logx.go` |
| `Config` | `internal/config/config.go` |
| `Repo`, `MessageRepo`, `UserRepo`, `RepoList` | `internal/repo/*.go`, `RepositoryList` |
| `Entities` | `internal/entities/*.go` |
| `Bson` | documents and the driver |
| `Telegram` | the bot API's records |
| `Utils` | `internal/utils/utils.go` |
| `Text`, `GoTime`, `GoInt`, `Wrappers` | the Go standard library pieces the code relies on |

## Model

| member | source | states |
|---|---|---|
| GoInt.Wrap64 | internal/handlers/handler.go:23 | the 64-bit result of an operation: in range, equal to the exact value modulo 2^64, and equal to it when it fits |
| GoInt.Quot | internal/db/redis.go:186 | Go's integer division: the quotient is truncated toward zero, so the remainder has the dividend's sign and is smaller than the divisor |
| GoTime.Truncate | internal/db/redis.go:148 | with a positive window, the window start is at most `now` and less than one window before it; a non-positive window leaves `now` unchanged |
| GoTime.TruncateAligned | internal/db/redis.go:148 | the window start is a whole number of windows after Go's zero time (year 1), not after the Unix epoch |
| GoTime.UnixSeconds | internal/db/redis.go:152 | whole seconds since the epoch, rounded down (also before the epoch) |
| GoTime.UnixMilli | internal/db/redis.go:175-176 | whole milliseconds since the epoch, rounded down |
| Text.IsSpace | internal/handlers/private/private-handler.go:33 | the white-space characters trimmed and split on are all outside the printable ASCII range `!`..`~` |
| Text.HasSuffix | internal/i18n/i18n.go:29 | a string that has the suffix is its remaining prefix followed by the suffix, so the suffix is no longer than the string |
| Text.TrimSuffix | internal/i18n/i18n.go:31 | when `s` ends with the suffix, the result followed by the suffix is `s`; otherwise `s` is unchanged |
| Text.TrimLeft | internal/handlers/private/private-handler.go:33 | the result is no longer than the input and does not start with whitespace |
| Text.TrimLeftShape | internal/handlers/private/private-handler.go:33 | the result is a suffix of the input, and every character dropped is whitespace |
| Text.TrimRight | internal/handlers/private/private-handler.go:33 | the result is no longer than the input and does not end with whitespace |
| Text.TrimRightShape | internal/handlers/private/private-handler.go:33 | the result is a prefix of the input, and every character dropped is whitespace |
| Text.TrimSpace | internal/handlers/private/private-handler.go:33 | `strings.TrimSpace` never lengthens its input |
| Text.TrimSpaceShape | internal/handlers/private/private-handler.go:33 | the result is a slice of the input that neither starts nor ends with whitespace, and everything outside the slice is whitespace |
| Text.TrimSpaceEmpty | internal/handlers/private/private-handler.go:32-37 | the trimmed text is empty exactly when the text is all whitespace |
| Text.TrimSpaceIdempotent | internal/i18n/i18n.go:44 | trimming a trimmed string changes nothing |
| Text.TrimmedEnds | internal/i18n/i18n.go:44 | a string is its own trim exactly when it is empty or neither starts nor ends with whitespace |
| Text.TrimSpaceNoSpace | internal/handlers/private/private-handler.go:33 | a string without whitespace is its own trim |
| Text.Fields | internal/handlers/private/private-handler.go:36 | splitting into words yields no more words than the text has characters |
| Text.WordLength | internal/handlers/private/private-handler.go:36 | the length of the leading word is at most the string's, and positive when the string starts with a non-space |
| Text.WordLengthShape | internal/handlers/private/private-handler.go:36 | the leading word has no whitespace and is followed by whitespace or the end |
| Text.WordLengthNoSpace | internal/handlers/private/private-handler.go:36 | a string without whitespace is one whole word |
| Text.FieldsAreWords | internal/handlers/private/private-handler.go:36 | every field of `strings.Fields` is non-empty and has no whitespace |
| Text.VisibleAppend | internal/handlers/private/private-handler.go:36 | the non-space characters of a concatenation are those of its parts, in order |
| Text.VisibleOfSpaces | internal/handlers/private/private-handler.go:36 | a string of whitespace has no non-space characters |
| Text.VisibleOfNoSpace | internal/handlers/private/private-handler.go:36 | a string without whitespace is all non-space characters |
| Text.VisibleTrimLeft | internal/handlers/private/private-handler.go:33 | removing leading whitespace keeps every non-space character |
| Text.VisibleTrimRight | internal/handlers/private/private-handler.go:33 | removing trailing whitespace keeps every non-space character |
| Text.VisibleTrimSpace | internal/handlers/private/private-handler.go:33 | trimming drops only whitespace |
| Text.ConcatCons | internal/handlers/private/private-handler.go:36 | joining a word and a list is the word followed by the joined list |
| Text.FieldsKeepVisible | internal/handlers/private/private-handler.go:36 | the fields, glued back together, are exactly the non-space characters of the text |
| Text.FieldsOfWord | internal/handlers/private/private-handler.go:36-41 | a single word has itself as its only field |
| Text.FieldsEmpty | internal/handlers/private/private-handler.go:36-37 | a text has no fields exactly when it is all whitespace |
| Text.WordLengthBeforeSpace | internal/handlers/private/private-handler.go:36 | a word followed by whitespace has exactly the word's length |
| Text.FieldsSkipsSpace | internal/handlers/private/private-handler.go:36 | leading whitespace does not change the fields |
| Text.FieldsCons | internal/handlers/private/private-handler.go:36 | a word, then whitespace, then the rest: the word is the first field and the fields of the rest follow |
| Text.FieldsJoin | internal/handlers/private/private-handler.go:36 | words joined by single spaces split back into exactly those words |
| Text.JoinTrimmed | internal/handlers/private/private-handler.go:33 | words joined by spaces are unchanged by trimming and start with the first word's first character |
| Text.IndexByte | internal/handlers/private/private-handler.go:44 | the position found holds the character and none holds it before; no position means the character does not occur |
| Text.LastIndexByte | internal/logx/logx.go:147 | the position found holds the character and none holds it after; no position means the character does not occur |
| Text.Join | internal/handlers/private/private-handler.go:70 | the joined text starts with the first part and, when there are more parts, the separator follows it at once |
| Text.Split | internal/handlers/private/private-handler.go:70 | `strings.Split` gives at least one part, and no part contains the separator |
| Text.JoinSplit | internal/handlers/private/private-handler.go:70 | joining the parts of a split with the separator gives back the text |
| Text.SplitJoin | internal/handlers/private/private-handler.go:70 | splitting parts that do not contain the separator, after joining them, gives back the parts |
| Text.SplitAfter | internal/handlers/private/private-handler.go:70-75 | the first part ends at the first separator and the rest is the split of what follows |
| Text.LowerChar | internal/i18n/i18n.go:32 | ASCII capitals move to lower case and every other character is kept |
| Text.ToLower | internal/i18n/i18n.go:32 | lower-casing keeps the length and folds each character on its own |
| Text.ToLowerIdempotent | internal/i18n/i18n.go:59 | lower-casing twice is lower-casing once |
| Text.DigitChar | internal/db/redis.go:152 | each digit value has a digit character that reads back as the same value |
| Text.IntToString | internal/db/redis.go:152 | the decimal rendering is never empty and starts with `-` exactly when the number is negative |
| Text.NatToString | internal/db/redis.go:152 | `%d` of a natural number is canonical: no leading zero except for zero itself |
| Text.NatToStringValue | internal/db/redis.go:152 | the rendering reads back as the number |
| Text.LeadingDigitPositive | internal/db/redis.go:155 | canonical digits with a non-zero first digit denote a positive number |
| Text.CanonicalIsRendering | internal/db/redis.go:155 | every canonical digit string is the rendering of its value |
| Text.IntToStringRoundTrip | internal/db/redis.go:152-155 | the strict parser reads every rendering back as the number rendered |
| Text.NatToStringLeading | internal/db/redis.go:152 | a positive number's rendering does not start with '0' |
| Text.ParseCanonicalIntIsRendering | internal/db/redis.go:155 | the strict parser accepts only renderings |
| Text.IntToStringInjective | internal/db/redis.go:152 | different numbers render differently, so different window starts give different counter keys |
| Text.IntToStringNoColon | internal/handlers/handler.go:20 | a rendered number contains neither ':' nor '@' |
| Text.NatRenderingNoDash | internal/db/redis.go:180 | a non-negative number renders without '-' |
| RedisServer.LiveEntry | internal/db/redis.go:48-53 | a command sees an entry at a key exactly when the key is present and not expired |
| RedisServer.Lookup | internal/db/redis.go:48-53 | the value a command sees is the live entry's value, and none when the key is absent or expired |
| RedisServer.GetCmd | internal/db/redis.go:49 | GET answers nil exactly for a missing or expired key, the string for a string value, and an error for a sorted set |
| RedisServer.ParseInt64 | internal/db/redis.go:104-105 | the server reads only canonical decimal renderings within 64 bits as integers |
| RedisServer.ParseInt64Rendering | internal/db/redis.go:104-105 | every 64-bit number's rendering is read back as that number |
| RedisServer.IncrByCmd | internal/db/redis.go:104-105 | INCRBY on success stores the sum as a decimal string within 64 bits; on an error nothing changes |
| RedisServer.SetNxCmd | internal/db/redis.go:99-100 | set-if-absent writes, with the given expiry, exactly when the key is absent or expired; a non-positive PX is an error; otherwise nothing changes |
| RedisServer.ExpireAtCmd | internal/db/redis.go:156 | EXPIREAT on a live key sets its expiry, or deletes it when that instant has passed; on a missing key it changes nothing and answers false |
| RedisServer.DelCmd | internal/db/redis.go:78-81 | DEL removes every listed key and counts those that were live |
| RedisServer.LiveKeys | internal/db/redis.go:260 | the keys DEL finds are exactly the listed keys that hold a live (unexpired) entry |
| RedisServer.LiveKeysCons | internal/db/redis.go:260 | the live keys of a DEL list are the first key's liveness plus the rest's on the store without it |
| RedisServer.ZAddCmd | internal/db/redis.go:183 | ZADD creates the set or adds the member with its score; on a string value it fails and changes nothing |
| RedisServer.ZRemRangeByScoreCmd | internal/db/redis.go:184 | ZREMRANGEBYSCORE keeps exactly the members outside the inclusive score range and deletes a set left empty |
| RedisServer.ZCardCmd | internal/db/redis.go:185 | ZCARD counts the set's members, is 0 for a missing key, and fails on a string value |
| RedisServer.UnlockScript | internal/db/redis.go:206-211 | the script deletes the key and answers 1 exactly when the key holds the token; otherwise nothing changes |
| RedisServer.Matching | internal/db/redis.go:236-243 | a filtered run of keys is no longer than the run |
| RedisServer.MatchingMembers | internal/db/redis.go:236-243 | the keys a scan keeps are exactly the live keys of the run that start with the prefix, without repeats when the run has none |
| RedisServer.MatchingAppend | internal/db/redis.go:243 | the matches of consecutive runs are the matches of each, concatenated |
| RedisServer.ScanEnd | internal/db/redis.go:239 | each scan step advances the cursor by COUNT, or to the end of the table |
| RedisServer.ScanCmd | internal/db/redis.go:239 | SCAN answers the matching keys of the next stretch of the slot order and the next cursor, which is 0 at the end |
| Cache.FormatMs | internal/db/redis.go:217 | a duration sent in milliseconds is truncated, and a positive one is at least 1 ms |
| Cache.FormatSec | internal/db/redis.go:186 | a duration sent in seconds is truncated, and a positive one is at least 1 s |
| Cache.SetNxPx | internal/db/redis.go:99-100 | a zero or keep-TTL duration sends plain SETNX, a positive one a positive PX, a negative one a non-positive PX |
| Cache.ScanCount | internal/db/redis.go:239 | the COUNT a scan uses is positive, and the caller's when that is positive |
| Cache.Max0 | internal/db/redis.go:164-167 | the remaining count is clamped at 0 and is otherwise the difference |
| Cache.FixedWindowKey | internal/db/redis.go:152 | the window's counter key starts with `rl:`, the caller's key and `:` |
| Cache.FixedWindowTxStores | internal/db/redis.go:154-157 | after a successful INCR and EXPIREAT the counter holds the new count with the window's expiry, an expiry already past deletes it, and no other key changes |
| Cache.SlidingKey | internal/db/redis.go:177 | the sorted-set key is `rl:sw:` followed by exactly the caller's key |
| Cache.SlidingMember | internal/db/redis.go:180 | the recorded member starts with the call's millisecond clock and `-` |
| Cache.SlidingWindowTx | internal/db/redis.go:182-190 | the transaction fails exactly when the key holds a live string (the WRONGTYPE case of ZADD) |
| Cache.Verdict | internal/db/redis.go:162-168 | allowed exactly when the counter is at most the limit; remaining is `limit - counter` when allowed and 0 otherwise |
| Cache.FixedWindowStep | internal/db/redis.go:146-169 | one fixed-window check: the reset time is the window start plus the window; an unreachable store answers `(false, 0, resetAt, err)` and changes nothing |
| Cache.SlidingWindowStep | internal/db/redis.go:173-202 | one sliding-window check: an error answers `(false, 0, zero time, err)`; success resets at `now + window` |
| Cache.CacheClient.constructor | internal/db/redis.go:15-18 | the client starts on the given store, reachable or not |
| Cache.CacheClient.GetString | internal/db/redis.go:47-54 | a missing key reads as "" with no error; a string reads as itself; a sorted set is an error |
| Cache.CacheClient.SetNX | internal/db/redis.go:98-101 | the store changes as SET NX with the duration's expiry; an unreachable store answers false and changes nothing |
| Cache.CacheClient.IncrBy | internal/db/redis.go:103-106 | the store changes as INCRBY, and the value is 0 on error |
| Cache.CacheClient.Delete | internal/db/redis.go:77-81 | DEL of the keys; an empty key list or an unreachable store is an error and deletes nothing |
| Cache.CacheClient.RateLimitFixedWindow | internal/db/redis.go:146-169 | the store and the answer are those of one fixed-window step at `now` |
| Cache.CacheClient.RateLimitSlidingWindow | internal/db/redis.go:173-202 | the store and the answer are those of one sliding-window step at `now` |
| Cache.CacheClient.AcquireLock | internal/db/redis.go:215-219 | the lock is SET NX of the token with the TTL |
| Cache.CacheClient.ReleaseLock | internal/db/redis.go:222-225 | released exactly when the script answered 1; the store changes as the script says |
| Cache.CacheClient.ScanPrefix | internal/db/redis.go:230-249 | the cursor loop returns every live key with the prefix, in slot order; an unreachable store returns nothing and an error |
| Cache.CacheClient.DeleteByPrefix | internal/db/redis.go:252-261 | removes exactly the live keys with the prefix and counts them; afterwards no key with the prefix is live |
| Cache.PrefixKeysMatching | internal/db/redis.go:230-261 | a full scan finds each live prefixed key exactly once; it is empty exactly when none exists, so nothing is deleted and 0 returned |
| CacheProps.FixedWindowBrackets | internal/db/redis.go:147-149 | the window start is at most `now`, and `now` is before the reset time |
| CacheProps.FixedWindowTouchesOnlyItsKey | internal/db/redis.go:152-157 | a fixed-window check changes no key except its window's counter |
| CacheProps.SlidingWindowTouchesOnlyItsKey | internal/db/redis.go:177-186 | a sliding-window check changes no key except the caller's sorted set |
| CacheProps.FixedWindowTxCounts | internal/db/redis.go:154-157 | before the counter expires, one transaction adds exactly 1 to it and keeps its expiry |
| CacheProps.ResetAligned | internal/db/redis.go:148-149 | for a window that is a whole number of units, the reset time is a whole number of units |
| CacheProps.WholeSecondExpiryAhead | internal/db/redis.go:156 | for whole-second windows, the expiry sent in seconds lies after every call in the window |
| CacheProps.RunFixed | internal/db/redis.go:146-169 | successive checks give one answer per call |
| CacheProps.FixedWindowStepCounts | internal/db/redis.go:152-168 | inside a whole-second window, a check adds one to the counter and answers by the new count |
| CacheProps.Counted | internal/db/redis.go:162-168 | the reference answers to `n` calls, one per call |
| CacheProps.CountedAt | internal/db/redis.go:162-168 | the i-th reference answer is the verdict on count `c + i + 1` |
| CacheProps.FixedWindowRunHead | internal/db/redis.go:152-168 | the first check of a run counts `c + 1`, and the store then holds the counter at `c + 1` |
| CacheProps.CountedEach | internal/db/redis.go:162-168 | every reference answer is the verdict on its own count |
| CacheProps.FixedWindowRunCounts | internal/db/redis.go:146-169 | within one whole-second window, the answers are exactly the reference answers from counter `c` on |
| CacheProps.FixedWindowRun | internal/db/redis.go:146-169 | within one whole-second window, the i-th call sees count `c + i + 1` |
| CacheProps.FixedWindowBudget | internal/db/redis.go:162-168 | from a fresh window, the first `limit` calls pass with remaining `limit-1` down to 0, and every later call is denied with remaining 0 |
| CacheProps.FixedWindowStepExact | internal/db/redis.go:156 | the intended step, expiring the counter at the window's true end in milliseconds; same reset time |
| CacheProps.FixedWindowStepsAgree | internal/db/redis.go:156 | on whole-second windows the step as written and the intended step are the same step |
| CacheProps.RunFixedExact | internal/db/redis.go:156 | the intended run gives one answer per call |
| CacheProps.FixedWindowExactStepCounts | internal/db/redis.go:152-168 | under the exact expiry, a check in a whole-millisecond window adds one and answers by the new count |
| CacheProps.FixedWindowExactRunHead | internal/db/redis.go:152-168 | the first check of an exact run counts `c + 1` |
| CacheProps.FixedWindowExactRunCounts | internal/db/redis.go:146-169 | under the exact expiry, any whole-millisecond window gives the reference answers |
| CacheProps.FixedWindowExactRun | internal/db/redis.go:146-169 | under the exact expiry, the i-th call of a whole-millisecond window sees count `c + i + 1` |
| CacheProps.FixedWindowEarlyExpiry | internal/db/redis.go:156 | as written, a 1.5 s window with limit 1 lets two calls in one window through |
| CacheProps.FixedWindowExactDenies | internal/db/redis.go:156 | with the exact expiry, the second of those calls is denied |
| CacheProps.LockExclusive | internal/db/redis.go:215-219 | a successful acquire holds the lock for its TTL: any other acquire before then fails and changes nothing |
| CacheProps.ForeignTokenNeverReleases | internal/db/redis.go:206-211 | while the lock is held, a release with another token answers 0 and changes nothing |
| CacheProps.SecondReleaseFails | internal/db/redis.go:222-225 | the owner's release deletes the lock, and a second release answers 0 |
| CacheProps.ExpiredLockReacquired | internal/db/redis.go:215-219 | after the TTL, another owner acquires the lock |
| SlidingProps.SlidingMemberInjective | internal/db/redis.go:180 | the member string determines both clock readings, so distinct readings give distinct members |
| SlidingProps.LogBounds | internal/db/redis.go:183 | every recorded score is between 0 and the latest call's |
| SlidingProps.LogAt | internal/db/redis.go:183 | each call's member stays recorded with its own score |
| SlidingProps.LogBack | internal/db/redis.go:183 | every recorded member belongs to some earlier call |
| SlidingProps.ImageCard | internal/db/redis.go:180-185 | distinct calls have distinct members, so a set of calls and its members are as many |
| SlidingProps.RecentCard | internal/db/redis.go:185 | the set's size is the number of calls in the window |
| SlidingProps.RecentStepLive | internal/db/redis.go:183-184 | adding the call and pruning at `now - window` inclusive leaves exactly the calls of the new window |
| SlidingProps.RecentStepFresh | internal/db/redis.go:183-184 | a call that finds no live set starts the window's set on its own |
| SlidingProps.ExpiryCoversWindow | internal/db/redis.go:186 | the set's lifetime of twice the window, sent in seconds, is at least the window |
| SlidingProps.WindowMs | internal/db/redis.go:175-176 | for a whole-millisecond window, `now - window` in milliseconds is `nowMs` minus the window |
| SlidingProps.SlidingTxEffect | internal/db/redis.go:182-187 | the transaction stores the pruned set with the new expiry and answers its size |
| SlidingProps.SlidingStepEffect | internal/db/redis.go:173-201 | a reachable check stores the pruned set and answers by its size, resetting at `now + window` |
| SlidingProps.StoredIsRecent | internal/db/redis.go:184-186 | a lifetime at least the window loses no call of the window |
| SlidingProps.SlidingStepLive | internal/db/redis.go:173-201 | a check that finds the previous set live extends it correctly |
| SlidingProps.SlidingStepFresh | internal/db/redis.go:173-201 | a check that finds no live set starts it correctly |
| SlidingProps.SlidingStepStored | internal/db/redis.go:173-201 | any reachable check leaves the set of the calls in its window |
| SlidingProps.Members | internal/db/redis.go:180 | one member per call |
| SlidingProps.ClocksCalls | internal/db/redis.go:180-183 | calls with ordered clocks and distinct second readings form a log of distinct calls |
| SlidingProps.WindowCallsScores | internal/db/redis.go:184 | the calls in a window, counted by clock or by score, are the same |
| SlidingProps.SlidingCallStored | internal/db/redis.go:173-201 | in a run on a fresh key, call `j` leaves the set of its window and answers by its size |
| SlidingProps.SlidingCallsUpTo | internal/db/redis.go:173-201 | every call of a run leaves the set of its window and answers by that size |
| SlidingProps.StoredCount | internal/db/redis.go:185 | the set a run builds holds as many members as there are calls in the window |
| SlidingProps.SlidingCallCount | internal/db/redis.go:185-197 | a check is judged by the number of calls less than one window old, itself included, whether earlier calls passed or not |
| SlidingProps.SlidingWindowCounts | internal/db/redis.go:183-197 | every check of a run is judged by the calls in its window, denied ones included |
| SlidingBound.SubsetCard | internal/db/redis.go:185 | a subset of a finite set of calls is no larger |
| SlidingBound.MaxOf | internal/db/redis.go:185 | a non-empty set of calls has a latest call |
| SlidingBound.UnixMilliMonotone | internal/db/redis.go:175 | the millisecond clock keeps the order of instants |
| SlidingBound.SlidingAllowedBound | internal/db/redis.go:183-193 | with distinct members, no trailing span of one window holds more than `limit` allowed calls |
| SlidingBound.WorkedRunWindows | internal/db/redis.go:184 | limit 3, window 10 s, calls at 0, 2, 4, 5 and 11 s: the windows hold 1, 2, 3, 4 and 4 calls |
| SlidingBound.DeniedCallsKeepBlocking | internal/db/redis.go:183-193 | in that run the first three calls pass, and the calls at 5 s and at 11 s are both denied |
| Config.ZeroConfig | internal/config/config.go:166 | the empty configuration returned with an error is itself rejected for the missing token |
| Config.Getenv | internal/config/config.go:76-150 | an unset variable reads as empty, and a non-empty reading is the variable's value |
| Config.Flag | internal/config/config.go:135-142 | a switch is on only when its variable is set (to `true`) |
| Config.WebhookVars | internal/config/config.go:176-188 | the four webhook settings checked, each named with the `APP_WEBHOOK_` prefix |
| Config.ToLogxLevel | internal/config/config.go:28-39 | "debug" and "error" name their levels; every other string, "warn" included, is Info |
| Config.ParseFailure | internal/config/config.go:79-83 | a variable that does not parse logs `env NAME` at error level, and nothing otherwise |
| Config.Seconds | internal/config/config.go:157-158 | the timeout is the parsed number of seconds, wrapping in 64 bits |
| Config.Assemble | internal/config/config.go:133-161 | boolean settings are true only for exactly "true"; the Mongo timeouts are the parsed seconds |
| Config.EmptyNames | internal/config/config.go:176-188 | no more names are listed than settings checked |
| Config.EmptyNamesMember | internal/config/config.go:176-188 | a name is reported exactly when its setting is empty |
| Config.EmptyNamesDistinct | internal/config/config.go:176-188 | with distinct names, no name is reported twice |
| Config.EmptyNamesExact | internal/config/config.go:176-188 | a name is listed exactly when its setting is empty, and none twice |
| Config.EmptyNamesAbsent | internal/config/config.go:176-188 | a name among no empty settings is not listed |
| Config.Validate | internal/config/config.go:163-195 | an empty token is rejected first; accepted exactly with a token and polling mode, or webhook mode with nothing missing |
| Config.PollingNeedsNoWebhook | internal/config/config.go:169-175 | polling mode with a token is accepted whatever the webhook settings |
| Config.Missing | internal/config/config.go:176-188 | at most the four webhook names are reported |
| Config.FormatList | internal/config/config.go:191 | the `%v` rendering of the missing names is bracketed and starts with the first name |
| Config.MissingIsEmptySettings | internal/config/config.go:175-188 | in webhook mode, a variable is reported exactly when its setting is empty |
| Config.WebhookComplete | internal/config/config.go:175-195 | webhook mode with all four settings is accepted |
| Config.ParsersDoNotDecide | internal/config/config.go:79-131 | numeric parse failures never change whether the configuration is accepted |
| Config.EmptyNamesOfFour | internal/config/config.go:176-188 | for four settings, the names listed are each setting's name when it is empty, in order |
| Config.MissingUnfolds | internal/config/config.go:176-188 | the missing list is PORT, PUBLIC_URL, TLS_CERT_FILE, TLS_KEY_FILE, each when empty, in that order |
| Config.ParseVar | internal/config/config.go:79-83 | a numeric variable keeps whatever the parser returned; a failure is written through the logger as `env NAME` at error level, and the logger is otherwise untouched |
| Config.Read | internal/config/config.go:73-161 | reading the environment gives the assembled configuration, the logger having received the parse errors one log call each, in reading order |
| Config.Check | internal/config/config.go:163-195 | the ordered checks, with the `missing` list grown one by one, reject exactly as the validation says |
| Config.ApplyLogging | internal/config/config.go:197-209 | the logger ends as the configured logger followed by the file warning: level, include-source and time format always applied, file logging enabled iff `LogFile` and the warning written when that fails, otherwise the file disabled |
| Config.Load | internal/config/config.go:73-211 | a rejected configuration is the zero Config and the logger receives the parse errors then the rejection; an accepted one leaves the logger as the parse errors, the settings applied, then the file warning at the new level |
| Config.Configured | internal/config/config.go:198-208 | the configured logger has the configuration's level and source flag, its time format unless empty, the file opened at the configured or current path when the open succeeds, unchanged file settings when it fails, no file when file logging is off, and the same console and stderr |
| Config.WarningAtNewLevel | internal/config/config.go:199-205 | the failed-open warning reaches the console exactly when `APP_LOG_LEVEL` is not "error", because it is written after the new level is set |
| Logx.LevelName | internal/logx/logx.go:22-35 | exactly the four levels have names other than UNKNOWN |
| Logx.LevelNamesDistinct | internal/logx/logx.go:22-35 | the four level names are distinct and contain no space |
| Logx.ColorFor | internal/logx/logx.go:125-138 | gray, blue, yellow and red for the four levels, and reset exactly for unknown levels |
| Logx.Header | internal/logx/logx.go:183-190 | the line head starts with the time stamp, a space and the level name, and ends with `]` when a source position is shown |
| Logx.ShortName | internal/logx/logx.go:146-150 | the shown name is the part of the path after its last '/', or the whole path without one |
| Logx.FileLine | internal/logx/logx.go:143-152 | the `name:line` part is empty exactly when the source is not included or the caller is unknown |
| Logx.ConsoleIsColouredFileLine | internal/logx/logx.go:166-193 | the console line is the file line with the level's colour before the header and the reset code after it |
| Logx.SplitTwoWords | internal/logx/logx.go:183-185 | the first two space-separated words of a line are read back |
| Logx.FileTextFields | internal/logx/logx.go:182-193 | with a timestamp free of spaces, a file line starts with the timestamp and then the level name |
| Logx.BackupName | internal/logx/logx.go:110-111 | the backup path is the file path, a dot, and the stamp |
| Logx.ShouldRotate | internal/logx/logx.go:101-107 | rotation happens only with an open file whose size is known and positive |
| Logx.Rotate | internal/logx/logx.go:108-122 | the file moves to its backup name when the rename works; a failed reopen falls back to stderr with no handle; other files are untouched |
| Logx.FailedReopenStopsRotation | internal/logx/logx.go:114-119 | after a failed reopen no later line rotates |
| Logx.Written | internal/logx/logx.go:193 | a file line is appended to the open file, and goes nowhere for stderr or discard |
| Logx.MaxSizeBytes | internal/logx/logx.go:84 | the size limit is MaxSizeMB mebibytes, wrapping in 64 bits, and positive for a positive size that fits |
| Logx.Logger.constructor | internal/logx/logx.go:63-89 | `New` takes level and include-source from the options, defaults an empty time format to RFC3339, and opens the file at `fp` |
| Logx.LogStepWrites | internal/logx/logx.go:163-195 | a record at or above the level adds one coloured console line, writes the file line to the file (or to stderr without a file) and then rotates |
| Logx.EmitOne | internal/logx/logx.go:156-196 | writing a single record is one logging step |
| Logx.LogStep | internal/logx/logx.go:156-196 | one log call: below the level the logger is unchanged; otherwise the console gains the coloured line, the file line goes to the open file or stderr, a full file is rotated, and the settings never change |
| Logx.Shown | internal/logx/logx.go:156-166 | the console lines for a run of records: none when every record is below the level, one per record when none is |
| Logx.Emit | internal/logx/logx.go:156-196 | a run of log calls keeps the logger's well-formedness and its level, source flag, time format, path and size limit |
| Logx.EmitAppend | internal/logx/logx.go:156-196 | writing two runs of records one after the other is writing their concatenation |
| Logx.EmitBelowLevel | internal/logx/logx.go:156-158 | records all below the logger's level leave it unchanged |
| Logx.EmitConsole | internal/logx/logx.go:156-166 | a run of log calls adds to the console exactly the lines shown for its records, in order |
| Logx.Logger.Logf | internal/logx/logx.go:156-196 | the logger's new state is one `LogStep` of the old: below the level nothing changes; otherwise one console line and one file line are written, then the rotation rule applies |
| Logx.Logger.SetLevel | internal/logx/logx.go:222-226 | only the level changes |
| Logx.Logger.SetIncludeSrc | internal/logx/logx.go:228-232 | only the include-source flag changes |
| Logx.Logger.SetTimeFormat | internal/logx/logx.go:234-241 | an empty format changes nothing; otherwise only the format changes |
| Logx.Logger.DisableFile | internal/logx/logx.go:243-251 | the handle is closed and later file lines are discarded; nothing else changes |
| Logx.Logger.EnableFile | internal/logx/logx.go:253-275 | an empty path keeps the current one; on success the file, path and size limit change; on failure nothing changes |
| Logx.New | internal/logx/logx.go:63-89 | no logger exactly when the file cannot be opened; otherwise a logger with the options applied |
| I18n.LangOf | internal/i18n/i18n.go:31-32 | the language of a file name is lower case and is the name without its `.json` suffix |
| I18n.Tables | internal/i18n/i18n.go:28-49 | no more languages are loaded than there are directory entries |
| I18n.FirstFailureNone | internal/i18n/i18n.go:26-52 | the walk completes exactly when no entry stops it |
| I18n.FirstFailureAt | internal/i18n/i18n.go:26-52 | a walk that stops reports the first entry that stops it |
| I18n.FirstFailureAppend | internal/i18n/i18n.go:26-52 | after a prefix that does not stop the walk, the failure is the rest's |
| I18n.TablesLaterWins | internal/i18n/i18n.go:47-49 | a later file for a language replaces the earlier files' table |
| I18n.TablesLangs | internal/i18n/i18n.go:28-32 | every language code comes from a readable `*.json` file and is lower case |
| I18n.Normalise | internal/i18n/i18n.go:42-45 | the table with every key trimmed of surrounding whitespace |
| I18n.NormalisedKeysTrimmed | internal/i18n/i18n.go:42-45 | every key of a normalised table is trimmed |
| I18n.NormalisationKeepsValues | internal/i18n/i18n.go:42-45 | when no two keys trim alike, each value stays under its trimmed key |
| I18n.NormalisedTablesUpdate | internal/i18n/i18n.go:47-49 | one more normalised table keeps the bundle normalised |
| I18n.FirstFailureSnoc | internal/i18n/i18n.go:26-52 | one more entry read: the walk goes on, or stops at that entry |
| I18n.TablesSnoc | internal/i18n/i18n.go:28-49 | one more entry read updates only its own language, and only for a readable `*.json` file |
| I18n.Load | internal/i18n/i18n.go:20-55 | the first failing entry is returned and no bundle; otherwise the bundle has the lower-cased default and every table normalised, later files winning |
| I18n.Bundle.constructor | internal/i18n/i18n.go:21-24 | an empty bundle with the default language lower-cased |
| I18n.Bundle.BestLang | internal/i18n/i18n.go:58-82 | the request, its base language or the default, in that order of preference, whichever is loaded first; failing all three, some loaded language, or the default when none is loaded |
| I18n.Bundle.Lookup | internal/i18n/i18n.go:88-99 | the requested language's non-empty entry, else the default language's, else the key itself |
| I18n.Bundle.T | internal/i18n/i18n.go:84-111 | without data the looked-up text is returned unchanged; with data its placeholders are filled |
| I18n.Negotiate | internal/i18n/i18n.go:58-76 | the trimmed, lower-cased request when loaded; otherwise its part before the first '-' when that part is non-empty and loaded; otherwise the default when loaded; no answer exactly when none of the three is loaded |
| I18n.TrimSpaceToLower | internal/i18n/i18n.go:59 | lower-casing keeps a trimmed string trimmed |
| I18n.NegotiateDefault | internal/i18n/i18n.go:58-76 | with `en` and `fr` loaded and default `en`, a request for `de` gets `en` |
| I18n.NegotiateNormalises | internal/i18n/i18n.go:59 | the request's case and surrounding whitespace do not matter |
| I18n.RegionRequest | internal/i18n/i18n.go:67-68 | in `base-region` the first '-' follows the base |
| I18n.NegotiateRegion | internal/i18n/i18n.go:63-72 | a regional request with no exact table falls back to its loaded base language |
| I18n.NameLen | internal/i18n/i18n.go:104 | a placeholder name's length is at most the text's |
| I18n.NameLenIsLongest | internal/i18n/i18n.go:104 | the name read is the longest run of `[a-zA-Z0-9_.-]` |
| I18n.RenderCons | internal/i18n/i18n.go:105-111 | pieces are filled one after another |
| I18n.PlaceholderSplit | internal/i18n/i18n.go:104-106 | a placeholder splits into its braces and its name |
| I18n.RawPlaceholderStep | internal/i18n/i18n.go:104-111 | a text starting with a placeholder is rebuilt from its pieces |
| I18n.RawCharStep | internal/i18n/i18n.go:104-111 | a text starting with any other character is rebuilt from its pieces |
| I18n.PiecesRaw | internal/i18n/i18n.go:104-111 | reading a text into pieces loses nothing: written back, they are the text |
| I18n.PiecesNames | internal/i18n/i18n.go:104 | every placeholder found has a non-empty name of name characters |
| I18n.RenderNoValues | internal/i18n/i18n.go:107-110 | data without a non-nil value for any name changes nothing |
| I18n.SubstituteNoValues | internal/i18n/i18n.go:107-110 | such data leaves the text unchanged |
| I18n.NameLenOf | internal/i18n/i18n.go:104 | a name followed by a non-name character is read whole |
| I18n.SubstitutePlaceholder | internal/i18n/i18n.go:104-110 | `{name}` at the front is replaced by its value or kept, and the rest is processed after it, not rescanned |
| I18n.SubstituteChar | internal/i18n/i18n.go:104-111 | any other character at the front is kept as it is |
| I18n.MalformedNotPlaceholder | internal/i18n/i18n.go:104 | braces around text with a character outside `[a-zA-Z0-9_.-]` are no placeholder |
| I18n.SubstituteLeftmost | internal/i18n/i18n.go:104-111 | `{{a}}` with `a = X` becomes `{X}`: matching starts at the leftmost brace that opens a placeholder |
| PrivateHandler.Routes | internal/handlers/private/private-handler.go:18-20 | the only message command is `/start` |
| PrivateHandler.CallbackRoutes | internal/handlers/private/private-handler.go:22-26 | the callback commands are `button_1`, `button_2` and `button_3`, each with its own handler |
| PrivateHandler.StripBotName | internal/handlers/private/private-handler.go:44-46 | everything from the first '@' is dropped; the name is unchanged exactly when it has no '@' or starts with one |
| PrivateHandler.StripBotNameIdempotent | internal/handlers/private/private-handler.go:44-46 | stripping twice is stripping once |
| PrivateHandler.ParseCommand | internal/handlers/private/private-handler.go:33-46 | no command exactly for an all-whitespace text; otherwise the word is the trimmed text up to its first whitespace, its name that word with the bot name stripped, and the arguments the fields of the rest, losing only whitespace |
| PrivateHandler.HandleMessage | internal/handlers/private/private-handler.go:30-63 | a non-empty whitespace-only text panics on `fields[0]`; a routed command dispatches with its arguments; otherwise the photo handler runs iff there is a photo |
| PrivateHandler.OneWordCommand | internal/handlers/private/private-handler.go:36-46 | a one-word text is its own command with no arguments |
| PrivateHandler.StartCommand | internal/handlers/private/private-handler.go:18-20 | `/start` routes to the start handler with no arguments |
| PrivateHandler.StartAddressedCommand | internal/handlers/private/private-handler.go:44-52 | `/start@bot` routes to the start handler too |
| PrivateHandler.FieldsOfTrimmed | internal/handlers/private/private-handler.go:33-36 | the fields of a trimmed non-empty text are its leading word, then the fields of what follows it |
| PrivateHandler.ParseCommandJoin | internal/handlers/private/private-handler.go:33-46 | words joined by spaces read back as the command of the first word, with the other words as its arguments |
| PrivateHandler.RoutedWords | internal/handlers/private/private-handler.go:30-52 | such a text whose first word names a route is dispatched to it with the other words as arguments |
| PrivateHandler.StartWord | internal/handlers/private/private-handler.go:18-20 | `/start` is one word with no bot name |
| PrivateHandler.StartWithArguments | internal/handlers/private/private-handler.go:18-52 | `/start` followed by space-separated words routes to the start handler with those words as arguments |
| PrivateHandler.StartFooText | internal/handlers/private/private-handler.go:36 | `/start` and `foo` joined by a space is the text `/start foo` |
| PrivateHandler.StartFoo | internal/handlers/private/private-handler.go:18-52 | `/start foo` routes to the start handler with the single argument `foo` |
| PrivateHandler.ParseCallback | internal/handlers/private/private-handler.go:70-75 | the command and arguments contain no ':' and, joined by ':', give back the data |
| PrivateHandler.ParseCallbackJoin | internal/handlers/private/private-handler.go:70-75 | `name:arg:...` reads back as that name and those arguments |
| PrivateHandler.HandleCallback | internal/handlers/private/private-handler.go:65-84 | the routed handler runs iff the command is routed, and the query is answered last in every case |
| PrivateHandler.StartKeyboard | internal/handlers/private/private-messages.go:33-40 | the start message's keyboard has two rows, of two buttons and one button |
| PrivateHandler.StartKeyboardData | internal/handlers/private/private-messages.go:35-39 | the start keyboard's buttons carry `button_1`, `button_2:arg_1` and `button_3` |
| PrivateHandler.StartKeyboardParses | internal/handlers/private/private-handler.go:70-75 | those read as `button_1`, `button_2` with exactly the argument `arg_1`, and `button_3` |
| PrivateHandler.StartKeyboardRoutes | internal/handlers/private/private-handler.go:22-26 | every button of the start keyboard reaches a callback route |
| Handler.RateWindow | internal/handlers/handler.go:23-27 | the window is positive; `RateLimitMs` milliseconds when that is positive, one minute when it is not |
| Handler.Decide | internal/handlers/handler.go:41-51 | a limiter error stops the update, a denial bans, and only an allowed answer proceeds |
| Handler.LimiterKey | internal/handlers/handler.go:20 | the limiter key is `rl:user:`, the sender's id and `:msg` |
| Handler.Gate | internal/handlers/handler.go:19-52 | skipped without a cache or a positive limit; an unknown limiter type allows with no store call; otherwise the chosen limiter's step decides |
| Handler.UnreachableStoreStops | internal/handlers/handler.go:41-44 | an unreachable store stops every update the gate consults it for |
| Handler.GateKeys | internal/handlers/handler.go:20 | the stored keys carry a second `rl:` prefix: `rl:rl:user:ID:msg:SECONDS` and `rl:sw:rl:user:ID:msg` |
| Handler.RunGate | internal/handlers/handler.go:19-52 | one decision per update |
| Handler.RunGateFixed | internal/handlers/handler.go:32-51 | with the fixed-window limiter, each decision is the limiter's answer read as above |
| Handler.GateBansOverBudget | internal/handlers/handler.go:19-51 | with the default minute, a sender's first `limit` updates in one minute pass and every later one is banned |
| Handler.PersistEffects | internal/handlers/handler.go:61-79 | the update is logged first; each failing step logs its error |
| Handler.CheckRate | internal/handlers/handler.go:19-52 | the handler's rate check changes the cache and decides exactly as the gate |
| Handler.MessageInsert | internal/handlers/handler.go:72-75 | creating the message sends one insert of its document |
| Handler.SenderUpsert | internal/handlers/handler.go:63-66 | saving the sender appends one or two operations to the history, keeps what came before, and the first is an upserting UpdateOne |
| Handler.UpsertSender | internal/handlers/handler.go:63-66 | the sender's upsert sends what the gate's model says and reports its failure |
| Handler.CreateMessage | internal/handlers/handler.go:72-78 | the message's insert sends what the model says and reports its failure |
| Handler.Persist | internal/handlers/handler.go:63-79 | the user is upserted, then the message created; a failure of either is logged and does not stop the other |
| Handler.Handle | internal/handlers/handler.go:17-83 | a limiter error logs and persists nothing; a denial sends only the ban reply; an encoding error logs and stops; otherwise the update is persisted |
| Utils.ChatIDFromUpdate | internal/utils/utils.go:54-62 | the message's chat; else the callback message's chat, a nil dereference when that is nil; else 0 |
| Utils.ChatIDFromCarriedMessage | internal/utils/utils.go:54-62 | a chat ID found is the chat of a message the update carries |
| Utils.MessageTakesPriority | internal/utils/utils.go:55-57 | with a message, the callback query does not matter |
| Utils.TrimNewlines | internal/utils/utils.go:25 | the result is a prefix that does not end in a newline, and only newlines were removed |
| Utils.TrimNewlinesAppended | internal/utils/utils.go:25 | appending newlines to a text not ending in one is undone by the trim |
| Utils.JSON | internal/utils/utils.go:14-27 | an encoding error is returned as is; otherwise the output never ends in a newline |
| Utils.HandlerDeps.constructor | internal/utils/utils.go:37-51 | each dependency is kept as given |
| Bson.Collection.constructor | internal/db/mongo.go:80-84 | a collection starts with nothing sent |
| Bson.Collection.InsertOne | internal/repo/message-repo.go:62 | the insert is recorded and answered by the server |
| Bson.Collection.UpdateOne | internal/repo/message-repo.go:106 | the update is recorded and answered by the server |
| Bson.Collection.FindOne | internal/repo/message-repo.go:122 | the lookup is recorded and answered by the server |
| Bson.Collection.DeleteOne | internal/repo/message-repo.go:163 | the delete is recorded and answered by the server |
| Bson.Collection.CountDocuments | internal/repo/message-repo.go:216 | the count is recorded and answered by the server |
| Bson.Collection.Find | internal/repo/message-repo.go:226 | the query is recorded and answered by the server |
| Bson.DocRef.constructor | internal/repo/message-repo.go:149-150 | a shared map holding the given fields |
| Entities.UserFields | internal/entities/user.go:10-14 | the user's document has no reserved key and carries its Telegram `id` |
| Entities.MessageFields | internal/entities/message.go:10-14 | the message's document has no reserved key and carries its `id` and `chat.id` |
| Entities.EntityDoc | internal/entities/message.go:10-14 | `_id` is present exactly when the ID is not nil; the payload keys and values are kept, plus `createdAt` and `updatedAt` |
| Entities.MessageEntity.constructor | internal/handlers/handler.go:72-74 | a message entity with a nil ID and zero times |
| Entities.UserEntity.constructor | internal/handlers/handler.go:63-65 | a user entity with a nil ID and zero times |
| Repo.Paginate | internal/repo/message-repo.go:186-191 | a page at or below 0 is page 1; a size outside 1..1000 is the default; the limit is the size; the skip is (page-1)*size when that fits |
| Repo.PaginateIdempotent | internal/repo/message-repo.go:186-191 | normalising a normalised request changes nothing |
| Repo.PagesAdjacent | internal/repo/message-repo.go:221-224 | page p+1 starts where page p ends |
| Repo.MulMonotone | internal/repo/message-repo.go:223 | a larger page size never gives a smaller product |
| Repo.SetDoc | internal/repo/message-repo.go:95-97 | the `$set` document has no `_id` or `createdAt`, has `updatedAt = now`, and keeps every other field |
| Repo.UpsertUpdate | internal/repo/message-repo.go:79-98 | the update document is `$set` as above and `$setOnInsert` with the fresh ID and `createdAt` |
| Repo.SetDocOfEntity | internal/repo/user-repo.go:84-96 | whatever an entity's ID and times, its `$set` is its payload plus `updatedAt` |
| Repo.FindOutcome | internal/repo/message-repo.go:129-136 | no documents is the not-found error; another error comes with an empty entity; success gives the document |
| Repo.UpdateOutcome | internal/repo/message-repo.go:151-158 | a driver error is returned; nothing matched is not-found; otherwise no error |
| Repo.DeleteOutcome | internal/repo/message-repo.go:163-170 | a driver error is returned; nothing deleted is not-found; otherwise no error |
| Repo.AsObjectId | internal/repo/message-repo.go:66 | an inserted ID that is not an object ID reads as the nil ID |
| Repo.DecodedId | internal/repo/message-repo.go:119-125 | a non-nil ID decoded from the projection is the document's `_id` |
| Repo.UpsertedObjectId | internal/repo/message-repo.go:112-116 | an upserted ID is taken only when it is an object ID |
| Repo.UpsertOutcome | internal/repo/message-repo.go:106-125 | created exactly when an upserted object ID came back; otherwise the ID found by the lookup, or the error |
| Repo.ListOutcome | internal/repo/message-repo.go:216-236 | the page and total only when both round trips succeed; otherwise nothing and the first error |
| Repo.InsertOutcome | internal/repo/message-repo.go:62-67 | the inserted ID, or the nil ID with the driver's error |
| Repo.DefaultId | internal/repo/message-repo.go:53-55 | the result is never nil and keeps a non-nil ID |
| Repo.DefaultTime | internal/repo/message-repo.go:57-59 | the result is never the zero time and keeps a set time |
| Repo.DefaultsIdempotent | internal/repo/message-repo.go:53-60 | defaulting twice is defaulting once: a created entity keeps its ID and creation time |
| MessageRepo.DateRange | internal/repo/message-repo.go:201-209 | `$gte` exactly with a lower bound, `$lt` exactly with an upper one |
| MessageRepo.UpsertFilter | internal/repo/message-repo.go:100-103 | the upsert filter matches on exactly `chat.id` and `messageid`, with the message's chat id and message id |
| MessageRepo.MessageFilter | internal/repo/message-repo.go:193-214 | `chat.id`, `from.id` and `date` exactly when their options are set, and `text` exactly for a non-empty pattern |
| MessageRepo.MessageListQuery | internal/repo/message-repo.go:185-224 | the filter above, newest first by date then `_id`, and the page normalised with default size 50 |
| MessageRepo.MessageRepository.constructor | internal/repo/message-repo.go:48 | the repository works on the given collection |
| MessageRepo.MessageRepository.Create | internal/repo/message-repo.go:52-68 | the entity gets an ID and creation time only where they are zero and the update time `now`, and is inserted |
| MessageRepo.MessageRepository.UpsertByChatAndMessageID | internal/repo/message-repo.go:73-126 | one upsert keyed on `chat.id` and `messageid`, and the ID lookup only when no upserted ID came back |
| MessageRepo.MessageRepository.FindByObjectID | internal/repo/message-repo.go:129-136 | a lookup by `_id`, no documents read as not-found |
| MessageRepo.MessageRepository.FindByChatAndMessageID | internal/repo/message-repo.go:139-146 | a lookup by chat and message ID, no documents read as not-found |
| MessageRepo.MessageRepository.Update | internal/repo/message-repo.go:149-159 | `updatedAt` is added to the caller's map, which is then set on the document; nothing matched is not-found |
| MessageRepo.MessageRepository.Delete | internal/repo/message-repo.go:162-171 | a delete by `_id`; nothing deleted is not-found |
| MessageRepo.MessageRepository.List | internal/repo/message-repo.go:185-237 | a count, then the page query only when the count succeeds |
| UserRepo.TelegramIdFilter | internal/repo/user-repo.go:101 | the user filter matches on exactly `id`, the Telegram id |
| UserRepo.UserFilter | internal/repo/user-repo.go:193-196 | a `username` regex `"^" + prefix` exactly for a non-empty prefix, with the prefix unescaped |
| UserRepo.UserListQuery | internal/repo/user-repo.go:186-206 | the filter above, newest first by `createdAt`, and the page normalised with default size 20 |
| UserRepo.UserRepository.constructor | internal/repo/user-repo.go:18-20 | the repository works on the given collection |
| UserRepo.UserRepository.Create | internal/repo/user-repo.go:46-62 | the entity gets an ID and creation time only where they are zero and the update time `now`, and is inserted |
| UserRepo.UserRepository.UpsertByTelegramID | internal/repo/user-repo.go:65-122 | one upsert keyed on the Telegram `id`, and the ID lookup only when no upserted ID came back |
| UserRepo.UserRepository.FindByObjectID | internal/repo/user-repo.go:125-132 | a lookup by `_id`, no documents read as not-found |
| UserRepo.UserRepository.FindByTelegramID | internal/repo/user-repo.go:135-142 | a lookup by `id`, no documents read as not-found |
| UserRepo.UserRepository.FindByUsername | internal/repo/user-repo.go:145-152 | a lookup by `username`, no documents read as not-found |
| UserRepo.UserRepository.Update | internal/repo/user-repo.go:155-165 | `updatedAt` is added to the caller's map, which is then set on the document; nothing matched is not-found |
| UserRepo.UserRepository.Delete | internal/repo/user-repo.go:168-177 | a delete by `_id`; nothing deleted is not-found |
| UserRepo.UserRepository.List | internal/repo/user-repo.go:186-218 | a count, then the page query only when the count succeeds |
| RepoList.RepositoryList.constructor | internal/db/mongo.go:80-96 | the two repositories kept as given |

## Left out

- Redis connection and plain wrappers: `NewCacheClient`, the ping, `Close`, contexts and deadlines are not modelled. Neither are `SetString`, `SetJSON`, `GetJSON`, `Exists`, `Expire`, `TTL`, `DecrBy`, `MSet`, `MGet`, `HSet`, `HGetAll`, `WithPipeline` or the commented demo. They add no logic of their own to the limiter, the lock or the scans.
- Concurrency: the logger's mutex and its unlocked read of the level, the `Writer` goroutine, and the bundle's read-write lock are not modelled. Each Redis transaction or script is one atomic step on the store.
- Sorted-set scores are exact integer milliseconds, not `float64`.
- Clocks, randomness and fresh object IDs are parameters:
  - the limiter's `now`;
  - the second clock reading in the sliding member (distinct calls give distinct members, an assumption about the clock);
  - the repositories' `now` and new IDs;
  - the logger's timestamp, caller position, file size and rotation stamp.
- Cache.CacheClient.ScanPrefix: the server's slot order is a parameter covering every key, and the model returns each key once, whereas a real SCAN may return a key twice while the table is rehashing. Keys written between scans are not modelled. Glob characters inside the prefix are taken literally.
- Cache.CacheClient.ScanPrefix: whether the store answers is fixed for the client's life, so a SCAN that fails on a later page is not modelled. Go then returns no keys and the error, discarding the pages already read (internal/db/redis.go:240-242).
- Cache.CacheClient.DeleteByPrefix: a DEL that fails after the scan succeeded is not modelled, for the same reason (internal/db/redis.go:260).
- Cache.CacheClient: the store is taken to read the client's clock, in milliseconds. Clock skew between the bot's host and the Redis server, which moves the TTL and score arithmetic, is not modelled.
- MongoDB:
  - Not modelled: the driver, index creation in the repository constructors, the connection code in `internal/db/mongo.go`, and errors from `bson.Marshal`/`Unmarshal` in the upserts.
  - Documents are field maps, so lookups and lists return documents, not decoded entities. Decoding and cursor errors are not modelled.
  - The encoded field names are the lower-cased Go names (`id`, `chat.id`, ...). The message upsert filters on `messageid` while the document stores the message ID under `id`. That is kept as written and not resolved, because it depends on the bot library's tags.
- The logger's file system is modelled as a map from path to lines: open and rename outcomes are boolean parameters, and a directory that cannot be created counts as a file that cannot be opened. `Close` is not modelled. Time formatting is the caller's timestamp string.
- Logx.Logger.Logf, Handler.Handle, Config.Load: a log record keeps its level and the fixed text of its format, not the rendered arguments.
- Config.Load: the logger is an object, never nil. The `logger != nil` guard before the settings are applied (internal/config/config.go:198) is not modelled; a nil logger would already fail at the first parse error, since `Errorf` does not check its receiver.
- The environment is a map, and `godotenv.Load` is not modelled. `strconv.Atoi`/`ParseUint` are abstract parsers that return a value and whether they succeeded.
- Localisation loading: the directory walk is a list of entries, each with its name and its decoded table or a read/decode error. `fmt.Sprint` of data values is not modelled: data values are strings, or nil.
- Text.LowerChar: folds ASCII capitals only, where Go's `strings.ToLower` folds every Unicode capital.
- Text.ToLower: is ASCII-only because it is built on `LowerChar`. I18n.Load, I18n.Bundle.constructor and I18n.Negotiate inherit this, so a language code or request with non-ASCII capitals is not folded by the model.
- I18n.Bundle.BestLang: the "some loaded language" chosen when neither the request nor the default is loaded is arbitrary, as Go's map iteration is. The contract says only that it is loaded.
- The route handlers themselves (`startHandler`, `photoHandler`, the button handlers) and every bot API call are effects named in the dispatch result. `defaultHandler` is not modelled: nothing calls it.
- Handler.Handle:
  - The nil `Message` and nil `From` dereferences are preconditions (the closure panics on them).
  - `bot.SendMessage`'s result is ignored, as in the source.
  - The JSON encoder's output for the update is a parameter.
  - The wiring in `internal/app/app.go` and `cmd/bbtelgo/main.go` is not modelled.
- `RedisCfg` and the limiter type constants are not defined in `internal/config/config.go`, so the handler's settings are their own record, `Handler.RedisCfg`, with the limiter type as `Handler.LimiterType`.
- Utils.JSON: `encoding/json` itself and the `pretty`/`escapeHTML` options are not modelled. The encoder's output or error is the parameter, and the model covers the trim.
- Repo.Paginate: the skip is `(page-1)*perPage` and non-negative only when that product fits in 64 bits. Beyond that it wraps, as Go's `int64` multiplication does, and the contract only says it is a 64-bit value.
- Handler.RateWindow: the contract covers configured values whose product with one million fits in 64 bits. Beyond that the duration wraps as in Go, and the contract only says the result is positive.
- Handler.GateBansOverBudget: the budget over a whole run is proved for the default one-minute window. For a configured window, Handler.RunGateFixed ties each decision to the limiter's answer, and CacheProps.FixedWindowBudget gives those answers for any whole-second window.

## Findings

| source | as written | input that shows it | evidently intended | confidence | as-written member | corrected member |
|---|---|---|---|---|---|---|
| internal/db/redis.go:156 | the fixed-window counter's expiry is sent with `ExpireAt`, which the client library sends in whole Unix seconds, so a window ending inside a second expires its counter before the window's end, possibly at once | window 1.5 s, limit 1, calls at Unix 4.1 s and 4.2 s: both are in the window [3.0 s, 4.5 s), the expiry is 4 s, so the counter is gone when the second call comes and both calls are allowed | the counter expires exactly at the window's end, as the comment on that line says, so the second call is denied | not executed | CacheProps.FixedWindowEarlyExpiry | CacheProps.FixedWindowExactDenies |

The as-written step is `Cache.FixedWindowStep`; the client method and the
handler use it, because that is what the code sends. `CacheProps.FixedWindowStepExact`
is the corrected step. `CacheProps.FixedWindowExactRun` gives its counting
property for every window of whole milliseconds.
`CacheProps.FixedWindowStepsAgree` proves that the two steps are the same
step for every whole-second window. So every fixed-window property proved
for such windows (`CacheProps.FixedWindowBudget`,
`Handler.GateBansOverBudget`) holds for the corrected step as well.

## Denied calls count against the sliding window

The sliding-window limiter adds every attempt to the sorted set before it
counts, denied attempts included (internal/db/redis.go:182-185). With limit
3 and a 10 s window, calls at 0, 2, 4, 5 and 11 s deny the call at 11 s:
the call at 0 s has aged out, but the set still holds the calls at 2, 4, 5
and 11 s, four in all. `SlidingBound.WorkedRunWindows` counts the set at
each of the five calls, and `SlidingBound.DeniedCallsKeepBlocking` proves
the replies of that run: three allowed, then two denied.
