# DPS ranking bot — ranking and rank roles

A model of the core of a Discord bot that keeps a DPS ("damage per second")
leaderboard. Members store a DPS score; `!rank` lists the ten best, and after
every score update the bot reassigns four rank roles, `TOP 1`, `TOP 2`,
`TOP 3` and `TOP 10`. Everything the model covers sits in `app/index.js`:

- `ranking.dfy` (module `Ranking`): the stored `[userId, dps]` pairs sorted
  by DPS, highest first. The sort is `Array.prototype.sort` with the
  comparator `b[1] - a[1]`, and that sort is stable. It is modelled as a
  stable insertion sort, `SortByDps`. The model proves that the result is a
  permutation, ordered by DPS, keeps equal DPS in store order, and is the
  only list with those properties. So any stable sort the engine uses gives
  the same ranking. The module also has the ten-entry slice and the picks
  for the four roles.
- `rank_text.dfy` (module `RankText`): the `!rank` reply. It covers the
  decimal rendering of the rank number and of the DPS, the line
  `#k <@id> - **dps** DPS`, the lines joined by newlines, and the
  "no registrants yet" reply when nothing is stored.
- `store.dfy` (module `Store`): the loop that copies the store listing
  (`kv.list({ prefix: ["dps"] })`) into `[userId, dps]` pairs. The store has
  one global list keyed `["dps", userId]`, not one list per guild.
- `roles.dfy` (module `Roles`): `updateRankingRoles`. The guild is reduced
  to its member cache (member id to role names) and the names of its cached
  roles.
  - If a rank role is missing, nothing changes.
  - Otherwise every cached member loses the four rank roles. Then `TOP 1`,
    `TOP 2` and `TOP 3` go to ranking positions 0, 1 and 2, and `TOP 10` to
    the first ten.
  - Each role call may fail, and a failed call is a no-op, as with the
    source's swallowed `.catch(() => {})`.
  - `Reassign` is the specification function. The class `Guild` holds the
    imperative version: a reset loop over the member cache, three guarded
    grants, and a loop over the ten ids. It is proved equal to `Reassign`.

Choices the code makes that the model keeps:

- Scores are one global list, not one per community.
- Ties keep the order of the store listing. That order is the key order of
  `["dps", userId]`. There is no tie-break by submission time.
- Roles are not updated by a minimal grant/revoke diff. The code strips all
  four rank roles from every cached member, then grants.
- Failures are not counted or reported.
- A member at ranking position 0, 1 or 2 also holds `TOP 10` (`PodiumHoldsTwoRankRoles`).

`if (top1)` is a JavaScript truthiness test. An empty-string id is therefore
skipped for `TOP 1`, `TOP 2` and `TOP 3`, but not in the `TOP 10` loop. The
model keeps that difference (`Truthy`, and the `m != ""` in
`RankRolesByPosition`).

## Model

| member | source | states |
|---|---|---|
| `Ranking.SortByDps` | app/index.js:72 | the sort by the comparator `b[1] - a[1]`, as a stable insertion sort, highest DPS first; its contract keeps the length, and `SortPermutes`, `SortRanks`, `SortIsStable` state the rest |
| `Ranking.SortPermutes` | app/index.js:72 | the sorted list holds exactly the stored entries (a permutation, as a multiset) |
| `Ranking.SortRanks` | app/index.js:72 | the sorted list has DPS non-increasing, as the comparator `b[1] - a[1]` asks |
| `Ranking.SortIsStable` | app/index.js:72 | for every DPS value, the entries with that value appear in the sorted list in their store order (stable sort) |
| `Ranking.SortIsTheStableSort` | app/index.js:53 | any list ordered by DPS that keeps store order among equal DPS equals `SortByDps`, so the ranking does not depend on the sort algorithm |
| `Ranking.SortIdempotent` | app/index.js:72 | sorting an already ranked list leaves it unchanged; sorting twice equals sorting once |
| `Ranking.TopTen` | app/index.js:53 | `slice(0, 10)`: the first `min(10, n)` entries of the ranking, in order |
| `Ranking.IdAt` | app/index.js:74-76 | `sorted[k]?.[0]`: present exactly when position `k` exists, and then the id at that position |
| `Ranking.Ids` | app/index.js:77 | `map(([id]) => id)`: one id per entry, in order |
| `Ranking.Select` | app/index.js:74-77 | `top10` has `min(10, n)` ids, and each of `top1`, `top2`, `top3`, when present, is the id at position 0, 1, 2 of `top10` |
| `Ranking.ListingIsTopOfRanking` | app/index.js:53 | the `!rank` slice has `min(10, n)` entries; it and the rest of the ranking together are the stored entries; no entry left out has more DPS than one shown |
| `Ranking.SelectionPicksPositions` | app/index.js:74-77 | `top10` holds the ids of the first `min(10, n)` sorted entries in order; `top1`/`top2`/`top3` are present exactly when there are at least 1/2/3 entries, and are then the ids at positions 0/1/2 |
| `Ranking.TopOneIsFirstBest` | app/index.js:72-74 | `top1` is absent exactly when nothing is stored; otherwise it is the id of the first stored entry, in store order, among those with the highest DPS |
| `Ranking.TiesKeepStoreOrder` | app/index.js:72 | a worked case: with DPS 90, 100, 90 for A, B, C the ranking is B, A, C |
| `RankText.NatToDecimal` | app/index.js:58 | the rank number renders as a non-empty digit string with no leading zero |
| `RankText.IntToDecimal` | app/index.js:58 | `${dps}` for an integral DPS (exact up to 2^53, see Left out): non-empty, starts with `-` exactly when the value is negative, and digits follow the sign |
| `RankText.IntToDecimalReadsBack` | app/index.js:58 | the rendered DPS (`${dps}`) parses back to the stored value, sign included |
| `RankText.RankLine` | app/index.js:58 | a listing line starts with `#` and ends with ` DPS` |
| `RankText.RankLines` | app/index.js:57-58 | one line per shown entry, line `k` rendered with rank number `k + 1` from entry `k` |
| `RankText.JoinLines` | app/index.js:59 | `join("\n")`: empty for no lines, and otherwise begins with the first line; `SplitJoinRoundTrip` is its inverse |
| `RankText.SplitJoinRoundTrip` | app/index.js:57-59 | lines joined with `"\n"` split back into the same lines when no line holds a newline |
| `RankText.RankReply` | app/index.js:53-61 | the answer is a reply exactly when nothing is stored, and that reply is "no registrants yet"; otherwise a channel message beginning with the ranking header |
| `RankText.RankReplyShape` | app/index.js:53-61 | with nothing stored the reply is "no registrants yet"; otherwise a channel message of the header followed by `min(10, n)` lines, line `k` being `#(k+1) <@id> - **dps** DPS` for sorted entry `k` |
| `RankText.HandleRank` | app/index.js:47-62 | the `!rank` handler answers with the reply for the collected entries, and replies (instead of sending to the channel) exactly when the store is empty |
| `Store.Entries` | app/index.js:50 | one `[userId, dps]` pair per listed store entry, in listing order, the id taken from the key `["dps", userId]` |
| `Store.CollectEntries` | app/index.js:67-70 | the push loop yields one `[userId, dps]` pair per listed store entry, in listing order |
| `Roles.Reassign` | app/index.js:79-100 | the member cache keeps its members; if any of the four rank roles is missing from the guild's roles, it is unchanged |
| `Roles.ResetAll` | app/index.js:90-92 | the reset over the member cache keeps the set of cached members; `ResetAllEffect` states what each member keeps |
| `Roles.ResetAllEffect` | app/index.js:90-92 | the reset removes only rank roles from a member, removes all four unless its call fails, and changes nothing for that member when it fails |
| `Roles.Grant` | app/index.js:95 | `cache.get(id)?.roles.add(role)` keeps the set of cached members; `GrantEffect` states its effect per member |
| `Roles.GrantEffect` | app/index.js:95 | a grant adds the role to the named cached member unless its call fails, and changes no other member |
| `Roles.GrantPick` | app/index.js:95-97 | `if (topK) ...add(roleK)` keeps the set of cached members; `GrantPickEffect` states its effect per member |
| `Roles.GrantPickEffect` | app/index.js:95-97 | the guarded grant adds the role to a cached member exactly when the pick is a truthy id equal to it and the call does not fail |
| `Roles.GrantEach` | app/index.js:98-100 | the `TOP 10` loop keeps the set of cached members; `GrantEachEffect` states its effect per member |
| `Roles.GrantEachEffect` | app/index.js:98-100 | the `TOP 10` loop adds the role to a cached member exactly when its id is listed and the grant does not fail |
| `Roles.RolesAfterReassign` | app/index.js:89-100 | each cached member ends with the roles it kept through the reset (all of them if its reset failed, else all but the rank roles) plus the rank roles its position earns whose grant did not fail |
| `Roles.OtherRolesUntouched` | app/index.js:91 | roles other than the four rank roles are never added or removed |
| `Roles.RankRolesByPosition` | app/index.js:89-100 | with every call succeeding, a cached member holds `TOP 1`/`TOP 2`/`TOP 3` exactly at ranking position 0/1/2 (non-empty id) and `TOP 10` exactly within the first ten positions, and keeps its other roles |
| `Roles.PodiumHoldsTwoRankRoles` | app/index.js:95-100 | with every call succeeding, the cached member at ranking position 0, 1 or 2 (non-empty id) ends with both `TOP 1`, `TOP 2` or `TOP 3` respectively and `TOP 10` |
| `Roles.FailuresStayWithTheirMember` | app/index.js:91-99 | failed role calls that do not concern a member leave that member's outcome as if nothing had failed |
| `Roles.OutcomeIsPerMember` | app/index.js:95-99 | a member's result depends only on its own roles before, so other members and ranked ids missing from the cache do not affect it |
| `Roles.ReassignIdempotent` | app/index.js:89-100 | running the update again on the same ranking, with the same calls failing, changes nothing more |
| `Roles.Guild.RemoveRankRolesFromAll` | app/index.js:90-92 | the reset loop leaves every cached member without the four rank roles, except where that member's call failed |
| `Roles.Guild.AddRoleTo` | app/index.js:95 | `cache.get(id)?.roles.add(role)` adds the role to a cached member and does nothing for an unknown id |
| `Roles.Guild.UpdateRankingRoles` | app/index.js:66-101 | the imperative update (collect, sort, pick, check roles, reset loop, grants, `TOP 10` loop) leaves the member cache equal to `Reassign` of the old cache |

## Left out

- The Discord client is not modelled: intents, login, the `ready` and `messageCreate` wiring, and the ignoring of bot authors (app/index.js:15-30, 103). `message.reply` and `channel.send` are modelled only as the returned `Outgoing` value.
- The `!dps` handler is not modelled (app/index.js:36-44). It parses the command, validates with `isNaN` and `parseFloat`, writes with `kv.set`, and replies. These are JavaScript regex, Unicode case-mapping and string-to-float coercion semantics.
- Deno KV is not modelled. The listing `kv.list({ prefix: ["dps"] })` is a given sequence in key order, and each key `["dps", userId]` is a `DpsKey`.
- DPS is an integer. The source stores JavaScript floating-point numbers. Fractional values, `NaN` and infinities are not modelled, and neither is the way JavaScript prints large doubles (see `RankText.IntToDecimal` below).
- `RankText.IntToDecimal`: agrees with `${dps}` only for |dps| ≤ 2^53 (`Number.MAX_SAFE_INTEGER`). Above that, JavaScript prints the shortest digits that read back to the same double, padded with zeros, and from 1e21 on it uses the exponent form. For example, 2**64 prints as `18446744073709552000`, while the model prints `18446744073709551616`. `RankText.RankLine` and `RankText.RankReplyShape` inherit this difference.
- Concurrency is not modelled. The resets are awaited one after another, but the grants are fire-and-forget promises. The model applies all calls in program order. Interleaving with a concurrent update, or with the Discord cache being refreshed, is left out.
- Roles are identified by name. `roles.cache.find` takes the first role with each name; the model conflates roles that share a name.
- The `console` logging, including the error on missing roles (app/index.js:85), and the `Deno.cron` keep-alive (app/index.js:105-107) carry no state and are left out.
- `RankText.RankReplyShape`: the line-by-line statement assumes no stored id contains a newline (`IdsOnOneLine`). Discord ids are digit strings.
