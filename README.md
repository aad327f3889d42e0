# disbot slash-command handler, modelled in Dafny

This project models the part of the disbot chat bot that has behaviour to reason about: the
`InteractionCreate` listener in `index.js`. For each slash-command interaction the listener picks
one of eight commands by name: `ping`, `help`, `roll`, `coinflip`, `random`, `webhook-send`,
`webhook-embed` and `webhook-info`. It computes a value (a dice roll, a coin flip, a random number,
a help text, a webhook report), calls the webhook gateway where needed, and answers with
`interaction.reply`. The outer `catch` sends a generic error reply only when the interaction has not
been replied to or deferred.

The model is deterministic. Everything the handler reads from outside is an input (`Handler.World`):

- the `DISCORD_WEBHOOK_URL` value, which may be unset;
- the number `Math.random()` returned, as a real in [0, 1);
- the clock reading, in milliseconds, that `setTimestamp()` stamps on an embed;
- whether building the webhook client fails, or `webhook.send` rejects or resolves;
- whether `client.fetchWebhook` rejects or resolves, and with what data;
- which `interaction.reply` calls the platform rejects, by call number.

The output is a log of effects: each reply call with its content kind, its `ephemeral` flag and
whether it was accepted, and each `send` or `fetchWebhook` call. The output also includes the
interaction's `replied` and `deferred` flags.

Files and modules:

- `wrappers.dfy` (`Wrappers`): `Option`.
- `commands.dfy` (`Commands`): the eight commands and the `commandName === ...` chain.
- `values.dfy` (`Values`): the dice and random-number draws, the coin flip and its emoji,
  JavaScript truthiness and `||` defaulting, and `Math.floor(ms / 1000)`.
- `webhook_url.dfy` (`WebhookUrl`): `url.match(/webhooks\/(\d+)\/([^/]+)/)` as a function
  returning `Option<(id, token)>`. The module also gives a declarative statement of the pattern,
  and proofs that the function matches it at the leftmost position, with greedy captures.
- `help_text.dfy` (`HelpText`): the help message, and the proof that it quotes every command.
- `handler.dfy`:
  - `Handler`: the whole listener as a function `Handle` from the interaction's flags to a `Step`
    (new flags, effect log, whether an exception escaped).
  - `HandlerProperties`: the properties of `Handle`.
- `interaction.dfy` (`Interactions`): the listener as an imperative procedure. It is a class
  `Interaction` holding `replied`, `deferred`, a reply counter and the effect log. Its methods
  return early where the source returns. Each method returns a `raised` flag for an exception that
  escapes it, and the caller branches on a local `failed` flag where the source has a `catch`.
  Each method's postcondition says its effect equals the matching `Handler` function, so the
  `HandlerProperties` lemmas hold of it.

Facts about `index.js` that shape the model:

- The listener handles eight commands (index.js:22-198). Five are public: `ping`, `help`, `roll`,
  `coinflip` and `random`. The three webhook commands reply ephemerally.
- A rejected `reply` throws and leaves `replied` false (index.js:101-110, 199-206). So one
  invocation can make up to three reply calls. For example, when the success reply of
  `webhook-send` throws, the local catch still replies "Failed to send". If that reply throws
  too, the outer catch sends the generic reply. `HandlerProperties.AtMostOneAcceptedReply` is what
  holds: at most one reply is ever accepted.
- Only `webhook-info` runs this regular expression in `index.js` itself (index.js:169).
  `webhook-send` and `webhook-embed` hand the URL to the library's `WebhookClient`, whose parsing
  is not modelled. A rejection there is the `SetupFailed` outcome, which makes no gateway call.

## Model

| member | source | states |
|---|---|---|
| `Commands.Lookup` | index.js:22-198 | The chain selects a command only under that command's own name. It selects none (the listener does nothing) exactly when the name is none of the eight. |
| `Commands.LookupName` | index.js:22-198 | Each command is reached by its own name, so no branch shadows another. |
| `Values.UniformPick` | index.js:56 | `Math.floor(r * n) + 1` lies in 1..n for r in [0, 1). |
| `Values.UniformPickSlice` | index.js:56 | The draw is k exactly when r*n lies in [k-1, k), in both directions. |
| `Values.UniformPickReachesAll` | index.js:73 | Every value 1..n is drawn for some r in [0, 1). |
| `Values.DiceRoll` | index.js:56 | The dice roll is in [1, 6]. |
| `Values.RandomDraw` | index.js:73 | The random number is in [1, 100]. |
| `Values.CoinResult` | index.js:64 | The coin result is "Heads" or "Tails", never a third value, and it is "Heads" exactly when r < 0.5. |
| `Values.CoinEmoji` | index.js:65 | The coin emoji is chosen exactly when the result is "Heads". |
| `Values.CoinFlipAgrees` | index.js:64-65 | The coin emoji is shown exactly when r < 0.5, and the disc emoji exactly with "Tails". |
| `Values.OrDefault` | index.js:127-128 | A null or empty option gives the default. A non-empty option passes through unchanged. A non-empty default gives a non-empty result. |
| `Values.WholeSeconds` | index.js:184 | The created time in seconds is the largest s with s*1000 <= ms (floor, also for negative ms). |
| `WebhookUrl.DigitRun` | index.js:169 | Greedy `\d+`: the run starting at j is all digits, and is followed by the end of the string or by a non-digit. |
| `WebhookUrl.SlashFreeRun` | index.js:169 | Greedy `[^/]+`: the run starting at j has no '/', and is followed by the end of the string or by a '/'. |
| `WebhookUrl.MatchAt` | index.js:169 | A match attempt at one position returns an all-digit non-empty id and a non-empty slash-free token. |
| `WebhookUrl.MatchFrom` | index.js:169 | A search from a position returns only well-formed id/token pairs. |
| `WebhookUrl.ParseWebhookUrl` | index.js:169-174 | The destructured id is non-empty and all digits. The token is non-empty and slash-free. |
| `WebhookUrl.MatchAtSpec` | index.js:169 | The attempt at i succeeds iff "webhooks/", digits, "/" and a slash-free token occur at i. Its captures are then the longest digit run and the longest token. |
| `WebhookUrl.DigitsOfOccurrence` | index.js:169 | Where the pattern occurs with d digits, the greedy digit run has exactly d digits, so backtracking changes nothing. |
| `WebhookUrl.MatchFromIsFirst` | index.js:169 | The search returns the attempt at the first position where one succeeds. Every attempt before it fails. |
| `WebhookUrl.ParseFindsOccurrence` | index.js:169-170 | A successful parse stands on an occurrence of the pattern. |
| `WebhookUrl.OccurrenceIsFound` | index.js:169-170 | Any occurrence of the pattern makes the parse succeed. |
| `WebhookUrl.ParseSucceedsIffMatches` | index.js:169-172 | The parse succeeds iff the pattern occurs somewhere in the URL. Otherwise the code throws "Invalid webhook URL format". |
| `WebhookUrl.ParseIsLeftmost` | index.js:169-174 | A successful parse returns the captures of the leftmost occurrence, with greedy id and token. |
| `HelpText.LinesQuote` | index.js:34-43 | Each listed command line quotes its command as `` `/name` ``. |
| `HelpText.Listed` | index.js:33-43 | The five basic commands are listed under "Basic Commands" and the three webhook commands under "Webhook Commands". |
| `HelpText.MessageQuotesEveryCommand` | index.js:30-47 | The help reply is a fixed non-empty text that quotes all eight command names. |
| `Handler.TryReply` | index.js:84-87 | A reply call is logged with its content and visibility. It throws iff the platform rejects it, and it sets `replied` only when accepted. |
| `HandlerProperties.DeliverCaughtLog` | index.js:94-111 | The effects of the send try/catch, for each outcome: the failure reply without a send, or after a rejected send, or after a delivered send whose confirmation reply threw. |
| `HandlerProperties.FetchCaughtLog` | index.js:168-197 | The effects of the info try/catch, for each outcome: no fetch when the URL does not parse, otherwise a fetch with the parsed id and token, then the report or the failure reply. |
| `HandlerProperties.TryReplyWellBehaved` | index.js:23-26 | A single direct reply keeps every command's promises. |
| `HandlerProperties.DeliverWellBehaved` | index.js:130-154 | The webhook delivery keeps the command's promises, with every reply ephemeral. |
| `HandlerProperties.FetchWellBehaved` | index.js:168-197 | The webhook-info try/catch keeps the command's promises, with every reply ephemeral. |
| `HandlerProperties.CommandWellBehaved` | index.js:22-198 | Every command body: at most one accepted reply, none when it throws, the command's visibility, never the generic error, and exactly one accepted reply when all replies are accepted. |
| `HandlerProperties.BoundaryLog` | index.js:199-206 | The outer catch adds the generic ephemeral reply exactly when the body threw and left the interaction neither replied nor deferred. |
| `HandlerProperties.IgnoredInteraction` | index.js:17 | Non-chat-input interactions and unknown names produce no reply and no gateway call, and change nothing. |
| `HandlerProperties.HandleTracks` | index.js:16-208 | Every run keeps the bookkeeping: the call count matches, `deferred` is untouched, and `replied` is set exactly by an accepted reply. |
| `HandlerProperties.KnownCommandRepliesOnce` | index.js:22-206 | When replies are accepted, each of the eight commands makes exactly one reply call, it is accepted, the generic fallback never fires, and nothing escapes. |
| `HandlerProperties.AtMostOneAcceptedReply` | index.js:16-208 | An interaction that starts unreplied is answered at most once, and ends `replied` exactly when it was. |
| `HandlerProperties.FallbackGuard` | index.js:199-206 | The generic error reply is sent iff the command threw and the interaction is neither replied nor deferred. |
| `HandlerProperties.ReplyVisibility` | index.js:23-196 | ping/help/roll/coinflip/random reply publicly. The webhook commands reply ephemerally on the not-configured, success and failure paths. The generic reply is ephemeral. |
| `HandlerProperties.UnconfiguredWebhook` | index.js:81-89 | With the webhook URL unset or empty, each webhook command replies "not configured" ephemerally, returns, and makes no send or fetch call. |
| `HandlerProperties.InfoParsesBeforeFetch` | index.js:169-175 | webhook-info fetches iff the URL parses, and then with the parsed id and token. On a parse failure it replies with the fetch-failure message and calls no gateway. |
| `HandlerProperties.ConfirmationRejectedReportsFailure` | index.js:96-110 | If `send` resolves, the success reply throws and the failure reply is accepted, then the log is the send, the rejected success reply and the accepted "Failed to send" reply; nothing escapes and the interaction ends replied. |
| `HandlerProperties.SentPayload` | index.js:91-99 | webhook-send hands `send` the `username` option or "Webhook Bot" and the `message` option as given; webhook-embed (index.js:127-141) hands it the `title` and `description` options, the `color` option or "#0099ff", and the clock reading as the timestamp. The send is the first effect. |
| `HandlerProperties.FailedDeliveryReported` | index.js:130-154 | When the platform accepts the replies and the client or embed cannot be built, or `send` rejects, webhook-send and webhook-embed reply once, ephemerally, with their own failure message, and never with the generic error. |
| `Interactions.Interaction.constructor` | index.js:16 | A delivered interaction starts neither replied nor deferred, with an empty log. |
| `Interactions.Interaction.Reply` | index.js:84-87 | `interaction.reply` updates the flags and the log as `Handler.TryReply` says. |
| `Interactions.Interaction.CallGateway` | index.js:96-99 | A gateway call is logged and changes no flag. |
| `Interactions.DeliverAndConfirm` | index.js:94-111 | The send/confirm try/catch has the effect of `Handler.Catch(Handler.Deliver(...))`. |
| `Interactions.SendViaWebhook` | index.js:80-112 | webhook-send, with its early return, has the effect of `Handler.SendCommand`. |
| `Interactions.SendEmbedViaWebhook` | index.js:114-155 | webhook-embed has the effect of `Handler.EmbedCommand`. |
| `Interactions.ShowWebhookInfo` | index.js:157-198 | webhook-info has the effect of `Handler.InfoCommand`. |
| `Interactions.RunKnownCommand` | index.js:22-198 | The dispatch chain has the effect of `Handler.RunCommand`. |
| `Interactions.OnInteractionCreate` | index.js:16-208 | The listener has the effect of `Handler.Handle`, so every `HandlerProperties` lemma holds of it. |

## Left out

- Client construction, intents, the ready and error listeners, login, and the bot-token check with `process.exit(1)` (index.js:1-14, 210-225). They are process and library plumbing.
- The network behaviour of `WebhookClient.send`, `client.fetchWebhook` and `interaction.reply`. Each is an abstract outcome in `Handler.World`. The platform's own rule that a second reply on a replied interaction fails is part of those outcomes. It is not a separate rule of the model.
- The URL parsing inside `new WebhookClient({ url })` and the title and colour checks of `EmbedBuilder` (index.js:95, 131-137). Both are library code. Their only visible effect is a throw before `send`, which is the `SetupFailed` outcome.
- The gateway latency `client.ws.ping` shown by `ping` (index.js:24). It is runtime library state, so `Pong` carries no number.
- Exact message wording, emoji and markdown. Replies are kinds of content (`Handler.Content`) with their computed values. The help text keeps its words and structure but not its emoji.
- `console.error` logging, async scheduling, and the IEEE-754 behaviour of `Math.random()` and of floating multiplication. `Math.random()` is a mathematical real in [0, 1).
- Deferring: the handler never calls `deferReply`. So `deferred` is only ever the value the interaction arrived with, and the properties hold for either value.
- The payload passed to `webhook.send` is recorded as data, including the embed's timestamp taken from `World.now`. What the platform does with a null `message`, `title` or `description` option is not modelled.
