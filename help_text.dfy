/** The text of the `/help` reply (index.js:30-47): a title, the five basic
    commands, the three webhook commands and a closing note, one line per
    command in the form "`/name` - description", with the source's bold
    markup. Only the emoji are left out of the model. */
module HelpText {
  import opened Commands

  /** (command, description) as the help text lists them. */
  const BasicEntries: seq<(Command, string)> := [
    (Ping, "Check bot latency"),
    (Help, "Show this help message"),
    (Roll, "Roll a dice (1-6)"),
    (CoinFlip, "Flip a coin"),
    (RandomNumber, "Generate a random number (1-100)")
  ]

  const WebhookEntries: seq<(Command, string)> := [
    (WebhookSend, "Send a message via webhook"),
    (WebhookEmbed, "Send a rich embed via webhook"),
    (WebhookInfo, "Get webhook information")
  ]

  /** The command as the help text quotes it: "`/name`". */
  function Quoted(c: Command): string
  {
    "`/" + Name(c) + "`"
  }

  function Line(entry: (Command, string)): string
  {
    Quoted(entry.0) + " - " + entry.1 + "\n"
  }

  function Lines(entries: seq<(Command, string)>): string
  {
    if entries == [] then "" else Line(entries[0]) + Lines(entries[1..])
  }

  const Title: string := "**Available Commands**\n\n"
  const BasicHeading: string := "**Basic Commands:**\n"
  const WebhookHeading: string := "\n**Webhook Commands:**\n"
  const Footer: string := "\n**Active Developer Badge**\n"
    + "Use any command to contribute to your Active Developer Badge eligibility!"

  function Message(): string
  {
    Title + BasicHeading + Lines(BasicEntries) + WebhookHeading + Lines(WebhookEntries) + Footer
  }

  /** t occurs in s at position i. */
  ghost predicate SubstringAt(s: string, t: string, i: nat)
  {
    i + |t| <= |s| && s[i..i + |t|] == t
  }

  ghost predicate Contains(s: string, t: string)
  {
    exists i: nat :: SubstringAt(s, t, i)
  }

  lemma ContainsInFront(a: string, t: string, b: string)
    requires Contains(a, t)
    ensures Contains(a + b, t)
  {
    var i: nat :| SubstringAt(a, t, i);
    assert (a + b)[i..i + |t|] == a[i..i + |t|];
    assert SubstringAt(a + b, t, i);
  }

  lemma ContainsBehind(a: string, t: string, b: string)
    requires Contains(b, t)
    ensures Contains(a + b, t)
  {
    var i: nat :| SubstringAt(b, t, i);
    assert (a + b)[|a| + i..|a| + i + |t|] == b[i..i + |t|];
    assert SubstringAt(a + b, t, |a| + i);
  }

  /** The rendering of a list of entries quotes every command in it. */
  lemma {:induction false} LinesQuote(entries: seq<(Command, string)>, k: nat)
    requires k < |entries|
    ensures Contains(Lines(entries), Quoted(entries[k].0))
    decreases k
  {
    var rest := Lines(entries[1..]);
    if k == 0 {
      var q := Quoted(entries[0].0);
      var line := Line(entries[0]);
      assert line == q + (" - " + entries[0].1 + "\n");
      assert SubstringAt(q, q, 0);
      ContainsInFront(q, q, " - " + entries[0].1 + "\n");
      ContainsInFront(line, q, rest);
    } else {
      LinesQuote(entries[1..], k - 1);
      ContainsBehind(Line(entries[0]), Quoted(entries[k].0), rest);
    }
  }

  /** Where each command sits in the two lists. */
  lemma Listed(c: Command)
    ensures IsWebhookCommand(c) ==> Contains(Lines(WebhookEntries), Quoted(c))
    ensures !IsWebhookCommand(c) ==> Contains(Lines(BasicEntries), Quoted(c))
  {
    match c
    case Ping => LinesQuote(BasicEntries, 0);
    case Help => LinesQuote(BasicEntries, 1);
    case Roll => LinesQuote(BasicEntries, 2);
    case CoinFlip => LinesQuote(BasicEntries, 3);
    case RandomNumber => LinesQuote(BasicEntries, 4);
    case WebhookSend => LinesQuote(WebhookEntries, 0);
    case WebhookEmbed => LinesQuote(WebhookEntries, 1);
    case WebhookInfo => LinesQuote(WebhookEntries, 2);
  }

  /** The help reply is a fixed non-empty text that quotes all eight
      command names. */
  lemma MessageQuotesEveryCommand(c: Command)
    ensures |Message()| > 0
    ensures Contains(Message(), Quoted(c))
  {
    var basic := Lines(BasicEntries);
    var hooks := Lines(WebhookEntries);
    var front := Title + BasicHeading;
    Listed(c);
    if IsWebhookCommand(c) {
      ContainsBehind(front + basic + WebhookHeading, Quoted(c), hooks);
    } else {
      ContainsBehind(front, Quoted(c), basic);
      ContainsInFront(front + basic, Quoted(c), WebhookHeading);
      ContainsInFront(front + basic + WebhookHeading, Quoted(c), hooks);
    }
    ContainsInFront(front + basic + WebhookHeading + hooks, Quoted(c), Footer);
  }
}
