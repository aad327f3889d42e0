/** The eight slash commands the handler recognises, and the chain of
    `commandName === '...'` tests that selects one of them (index.js:22-198). */
module Commands {
  import opened Wrappers

  datatype Command =
    | Ping
    | Help
    | Roll
    | CoinFlip
    | RandomNumber
    | WebhookSend
    | WebhookEmbed
    | WebhookInfo

  /** The name under which the platform delivers the command. */
  function Name(c: Command): string
  {
    match c
    case Ping => "ping"
    case Help => "help"
    case Roll => "roll"
    case CoinFlip => "coinflip"
    case RandomNumber => "random"
    case WebhookSend => "webhook-send"
    case WebhookEmbed => "webhook-embed"
    case WebhookInfo => "webhook-info"
  }

  /** The commands that talk to the configured webhook. */
  predicate IsWebhookCommand(c: Command)
  {
    c == WebhookSend || c == WebhookEmbed || c == WebhookInfo
  }

  /** The if/else-if chain: the first branch whose name equals `name`, or
      None when no branch matches and the handler falls through silently. */
  function Lookup(name: string): (r: Option<Command>)
    ensures r.Some? ==> Name(r.value) == name
    ensures r.None? <==> forall c: Command :: Name(c) != name
  {
    if name == "ping" then Some(Ping)
    else if name == "help" then Some(Help)
    else if name == "roll" then Some(Roll)
    else if name == "coinflip" then Some(CoinFlip)
    else if name == "random" then Some(RandomNumber)
    else if name == "webhook-send" then Some(WebhookSend)
    else if name == "webhook-embed" then Some(WebhookEmbed)
    else if name == "webhook-info" then Some(WebhookInfo)
    else None
  }

  /** Names are distinct, so every command is reached by its own name. */
  lemma LookupName(c: Command)
    ensures Lookup(Name(c)) == Some(c)
  {
  }
}
