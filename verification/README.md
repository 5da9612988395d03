# Player-count channel names: a Dafny model of the reconciliation tick

The bot polls each configured game server's `/api/get_status` endpoint. It
shows the player count in the names of chat channels bound to that server,
for example `🟡 - 7  - Server 1`. Each scheduler tick runs
`updateChannelStatus` once. This project models that tick and proves what it
guarantees.

- `StatusFetch` (`status_fetch.dfy`) covers `getGameState`. It turns one
  already-received reply into a `GameState` record, or into `None` where the
  source returns `null`.
- `StatusIndicator` (`status_indicator.dfy`) covers the choice of glyph. A
  player count and the two thresholds `FLAG_YELLOW` and `FLAG_GREEN` give a
  red, yellow or green circle.
- `ChannelNaming` (`channel_naming.dfy`) builds the new channel name with the
  source's template, literally. It also has a parser that is proved to be the
  name builder's exact inverse.
- `Reconciliation` (`reconciliation.dfy`) covers the tick itself.
  - `RunServers`, `ServerStep`, `RunBindings` and `BindingStep` are its
    reference definition, written as a fold over the ordered mapping.
  - `ChannelTable` is a class that holds the platform's channel names, the
    `setName` requests sent and a report of outcomes.
  - `ChannelTable.UpdateChannelStatus` is the nested server and binding loop.
    It works on that state in place and is proved equal to the fold.
- `ReconciliationProperties` (`reconciliation_properties.dfy`) proves
  properties of the fold:
  - a healthy binding reaches its target;
  - a converged table is a fixpoint, and a second clean tick is a no-op;
  - a failing binding leaves the channel names as if it were not configured,
    and so does an unavailable server, which also sends no request.

The chat platform is reduced to two parts. The first is a table from channel
id to current name. The second is a `Faults` value. For each channel id,
`Faults` can make the lookup return nothing or throw an error code, and can
make `setName` throw an error code. An id that is neither in the table nor
faulted looks up as nothing.

Each server's HTTP reply is given as a map from URL to `Reply`. A URL with no
entry stands for a `fetch` that threw.

Three behaviours of the code are easy to miss. The model follows the code in
each of them.

- **Name format.** The template puts a space before the suffix, and the
  configured suffixes already start with one (main.mjs:101, config.js:12).
  The name is therefore `🟡 - 7  - Server 1`, with two spaces
  (`ChannelNaming.MediumSevenExample`).
- **Missing `result.map`.** The guard tests only `result` and
  `result.current_players` (main.mjs:45). Reading `result.map.pretty_name`
  (main.mjs:50) when `map` is missing throws, and the outer
  `catch` returns `null` (main.mjs:61-64). Such a reply therefore gives no
  game state.
- **Lookup errors.** The channel lookup sits inside the same `try` as
  `setName` (main.mjs:102-123). A lookup that throws is therefore reported by
  the same handler, which sorts codes 10003, 50013 and any other code in the
  same way.

The thresholds are never required to be ordered. With `FLAG_GREEN <=
FLAG_YELLOW`, Medium never occurs.

`checkPlayerCount` (main.mjs:68-84) adds a `num_players != null` test. Counts
here are already-parsed natural numbers, so that test always passes.
`Reconciliation.ServerState` is therefore `getGameState` applied to the
server's reply.

## Model

| member | source | states |
|---|---|---|
| `StatusFetch.GetGameState` | main.mjs:25-65 | The result is a record exactly when the reply is a response with a 2xx status, a content type that contains `application/json`, a parsed body with `result`, `result.current_players` and `result.map`. The record's fields are copied from `current_players`, `max_players`, `name` and `map.pretty_name`. In every other case the result is `None`. |
| `StatusFetch.IncludesAt` | main.mjs:43 | The content-type test `includes` holds exactly when the pattern occurs at some position. |
| `StatusFetch.ShortNeverIncludes` | main.mjs:43 | A header shorter than `application/json` never passes the content-type test. |
| `StatusFetch.ServeRoundTrip` | main.mjs:46-51 | A game state served with a JSON content type is read back unchanged. |
| `StatusFetch.HtmlReplyRejected` | main.mjs:43-59 | A `text/html` reply gives `None` whatever its status and body. |
| `StatusIndicator.Classify` | main.mjs:97-98 | Red exactly when count <= yellow. Yellow exactly when yellow < count <= green. Green exactly when the count exceeds both thresholds. Yellow never occurs when green <= yellow. |
| `StatusIndicator.Glyph` | main.mjs:97-98 | Red is rendered as U+1F534, yellow as U+1F7E1 and green as U+1F7E2, and each glyph comes from its indicator only. |
| `StatusIndicator.IndicatorOfGlyph` | main.mjs:97-98 | Each of the three glyphs reads back as its own indicator, and no other character does. |
| `StatusIndicator.ClassifyMonotone` | main.mjs:97-98 | More players never give a lower indicator, for any thresholds. |
| `StatusIndicator.DefaultThresholdExamples` | main.mjs:97-98 | With yellow 5 and green 10: 5 gives red, 6 and 10 give yellow, 11 gives green. |
| `ChannelNaming.Decimal` | main.mjs:101 | The rendering of the count is a non-empty string of digits without a leading zero. |
| `ChannelNaming.DecimalRoundTrip` | main.mjs:101 | Parsing the rendered count gives the count back. |
| `ChannelNaming.CanonicalRoundTrip` | main.mjs:101 | Every digit string without a leading zero is the rendering of its value, so the rendering is a bijection. |
| `ChannelNaming.DigitRun` | main.mjs:101 | The result is the length of the longest run of digits at the start of a string. The name parser uses it to find where the count ends. |
| `ChannelNaming.ChannelName` | main.mjs:101 | The name starts with the glyph followed by `" - "`, ends with the suffix, and is 5 characters longer than the count and suffix together. |
| `ChannelNaming.ChannelNameRoundTrip` | main.mjs:101 | Parsing a built name gives back its indicator, count and suffix, so the name is exactly glyph, `" - "`, count, `" "`, suffix. |
| `ChannelNaming.ParsedNameRebuilds` | main.mjs:101 | Every string that parses is exactly the name built from its parts. |
| `ChannelNaming.ChannelNameInjective` | main.mjs:101 | Different indicators, counts or suffixes never give the same name. |
| `ChannelNaming.MediumSevenExample` | main.mjs:101 | Medium, 7 players and suffix `" - Server 1"` give `🟡 - 7  - Server 1`, with two spaces. |
| `Reconciliation.ServerState` | main.mjs:68-84 | A server whose fetch threw has no game state. A server has a game state exactly when `getGameState` accepts its reply, and the state is the one `getGameState` builds. |
| `Reconciliation.FetchChannel` | main.mjs:103-107 | The lookup finds a channel, with its current name, exactly when the channel exists and its lookup is not faulted. It fails exactly when a throwing fault is injected, and then carries that fault's error code. |
| `Reconciliation.FailureEvent` | main.mjs:115-123 | Code 10003 is reported as a deleted channel, 50013 as missing permissions, and any other code as a generic update failure. |
| `Reconciliation.BindingStep` | main.mjs:100-123 | A name changes only to the target, and exactly when the channel is found, differs from the target and the rename succeeds. A rename request goes out exactly when the channel is found and differs, and only for the target. Each binding adds exactly one report entry: missing channel, the failure code's entry for a lookup or rename that throws, already up to date, or renamed. |
| `Reconciliation.RunBindings` | main.mjs:100-124 | Over one server's bindings, no channel appears or disappears. Only channels those bindings name can change, and every rename request is for one of them. The requests and report only grow, with one report entry per binding. |
| `Reconciliation.ServerStep` | main.mjs:89-127 | A server without a game state changes no channel, sends no request and adds one report entry. Otherwise only its bound channels can change. |
| `Reconciliation.RunServers` | main.mjs:87-129 | Over the whole mapping, no channel appears or disappears. Only channels bound to a server that has a game state can change. |
| `Reconciliation.ChannelTable.UpdateChannelStatus` | main.mjs:87-129 | The nested loops leave the channel table, requests and report equal to `RunServers` of the old state. Channels outside the active bindings keep their names. |
| `Reconciliation.ChannelTable.UpdateServerChannels` | main.mjs:100-124 | The inner loop leaves the state equal to `RunBindings` of the old state. |
| `Reconciliation.ChannelTable.UpdateChannel` | main.mjs:101-123 | One loop iteration leaves the state equal to `BindingStep` of the old state. |
| `ReconciliationProperties.RunBindingsReachesTarget` | main.mjs:100-124 | An existing channel whose lookup and rename do not fail ends its server's pass with the target of the last binding that names it. This holds whatever happens to the other bindings. |
| `ReconciliationProperties.RunServersReachesTarget` | main.mjs:88-128 | A healthy binding of a server with a game state ends the tick with its target name when no later binding in the mapping names the same channel. This holds whatever the other servers and bindings do. |
| `ReconciliationProperties.RunBindingsAtFixpoint` | main.mjs:109-114 | When every bound channel already has its target name, a server's pass changes no name and sends no rename. |
| `ReconciliationProperties.RunServersAtFixpoint` | main.mjs:109-114 | A tick over a converged table changes no name and sends no rename, even when lookups or renames fail. |
| `ReconciliationProperties.CleanTickConverges` | main.mjs:88-128 | After a tick with no failures, every existing channel bound to an available server has its target name. |
| `ReconciliationProperties.SecondTickIsNoOp` | main.mjs:109-113 | After a tick with no failures, a second tick with the same replies sends no rename and changes no name. |
| `ReconciliationProperties.RunBindingsAppend` | main.mjs:100 | Running two lists of bindings one after the other is the same as running their concatenation, in order. |
| `ReconciliationProperties.RunServersAppend` | main.mjs:88 | Running two server lists one after the other is the same as running their concatenation, in order. |
| `ReconciliationProperties.RunBindingsOnlyReadsNames` | main.mjs:100-124 | The names a pass produces depend only on the names it starts from. The requests depend only on the starting names and requests, never on the report. |
| `ReconciliationProperties.RunServersOnlyReadsNames` | main.mjs:88-128 | The same holds for a whole tick. |
| `ReconciliationProperties.FailingBindingIsInert` | main.mjs:102-123 | A binding whose channel is missing, or whose lookup or rename fails, leaves the channel names as if the binding were absent. When the channel is missing or its lookup fails, the rename requests are also as if it were absent. The bindings after it are still processed. |
| `ReconciliationProperties.UnavailableServerIsInert` | main.mjs:88-94 | A server without a game state leaves the table and requests as if it were absent. The servers after it are still processed in order. |

## Left out

- HTTP is not modelled: `node-fetch`, the bearer-token header, reading the body as text and `JSON.parse`. A reply is an already-received value, and a body `JSON.parse` would reject is `Unparsable`.
- The `discord.js` client is not modelled: login, the `ready` handler, and the real `channels.fetch` and `setName` calls. They become the channel table and the injected `Faults`.
- A channel's lookup and rename outcome is fixed for one tick. A channel bound twice gets the same outcome both times.
- JavaScript `parseInt` is not modelled. That includes `NaN` for a `current_players` that is `null` or non-numeric, which passes the `!= null` test. The count is an already-parsed natural number, and a missing `max_players` is `None`.
- Log text and levels are not modelled; the report records only which branch was taken.
- The debug logs of the raw response are not modelled.
- The outer `try`/`catch` of each server iteration (main.mjs:89, 125-127) has no model path that reaches it. Every error in the modelled body is caught by the inner handlers or inside `getGameState`.
- The `setInterval` restart supervisor and the `unhandledRejection` handler are not modelled. They are timer and process plumbing.
- Environment-variable loading in config.js is not modelled: the `|| default` fallbacks and the required-variable check. Thresholds and the mapping are parameters.
- The interleaving of `await`s is not modelled. The source awaits each call in turn, so the model is sequential.
- RunServersReachesTarget: assumes no later binding in the mapping names the same channel. A channel bound twice takes the target of its last processed binding.
- CleanTickConverges: assumes each channel id is bound at most once, for the same reason.
- SecondTickIsNoOp: assumes each channel id is bound at most once. A channel bound to two different targets is renamed on every tick, so idempotence does not hold for it.
- FailingBindingIsInert: says nothing about rename requests when the rename itself fails, because the failed `setName` request was still sent.
- Counts are unbounded natural numbers, not JavaScript numbers. The decimal rendering matches JavaScript only below 10^21, where JavaScript switches to exponent notation, and `parseInt` loses precision above 2^53. Player counts never come near either bound.
- A successful `setName` is taken to store the name exactly as sent. The platform may trim or otherwise normalise names, and `SecondTickIsNoOp` relies on it not doing so.
