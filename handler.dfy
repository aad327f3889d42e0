/** The InteractionCreate handler (index.js:16-208) as a function from the
    interaction's state before the call to its state after it. The state is
    the interaction's `replied` and `deferred` flags, the number of `reply`
    calls made so far, and the log of effects: every `reply` call with its
    content, its `ephemeral` flag and whether the platform accepted it, and
    every call to the webhook gateway. A thrown JavaScript exception is a
    Step whose `raised` flag is set. */
module Handler {
  import opened Wrappers
  import opened Commands
  import opened Values
  import opened WebhookUrl
  import HelpText

  /** What a reply says, one alternative per message of the source. */
  datatype Content =
    | Pong
    | HelpReply(text: string)
    | Rolled(roll: int)
    | CoinLanded(emoji: Emoji, result: string)
    | RandomPicked(number: int)
    | NotConfigured
    | MessageSent
    | MessageFailed
    | EmbedSent
    | EmbedFailed
    | InfoReport(name: string, channelId: string, id: string, avatarSet: bool, createdSeconds: int)
    | InfoFailed
    | CommandFailed

  /** What is handed to `webhook.send`. */
  datatype Payload =
    | Text(content: Option<string>)
    | Embed(title: Option<string>, description: Option<string>, color: string, timestamp: int)

  datatype Effect =
    | Reply(content: Content, ephemeral: bool, accepted: bool)
    | Send(username: string, payload: Payload)
    | Fetch(id: string, token: string)

  /** What `client.fetchWebhook` resolves to. */
  datatype WebhookData = WebhookData(
    name: string, channelId: string, id: string, avatar: Option<string>, createdTimestamp: int)

  /** How the webhook delivery goes: `new WebhookClient(...)` (and, for
      embeds, the EmbedBuilder calls) throw before anything is sent, or
      `webhook.send` is called and rejects, or it is called and resolves. */
  datatype SendOutcome = SetupFailed | SendRejected | Delivered

  datatype FetchOutcome = FetchRejected | Fetched(hook: WebhookData)

  /** Everything the handler reads from outside the interaction:
      `process.env.DISCORD_WEBHOOK_URL`, the value `Math.random()` returns,
      the clock reading (in milliseconds) that `setTimestamp()` stamps on an
      embed, the outcomes of the gateway calls, and which `interaction.reply`
      calls (numbered from 0 for this interaction) the platform rejects. */
  datatype World = World(
    webhookUrl: Option<string>,
    random: real,
    now: int,
    send: SendOutcome,
    fetch: FetchOutcome,
    rejectedReplies: set<nat>)

  /** The event: `isChatInputCommand()`, `commandName` and the string options. */
  datatype Invocation = Invocation(chatInput: bool, commandName: string, options: map<string, string>)

  /** The interaction's own state: `replied`, `deferred`, and how many
      `reply` calls were made on it. */
  datatype Flags = Flags(replied: bool, deferred: bool, attempts: nat)

  /** The outcome of running a piece of the handler: the new flags, the
      effects it produced in order, and whether it ended by throwing. */
  datatype Step = Step(flags: Flags, log: seq<Effect>, raised: bool)

  const DefaultUsername: string := "Webhook Bot"
  const DefaultColor: string := "#0099ff"

  /** `interaction.options.getString(name)`: null when the option is absent. */
  function GetString(options: map<string, string>, name: string): Option<string>
  {
    if name in options then Some(options[name]) else None
  }

  // ----- Counting over effect logs -----

  function ReplyWeight(e: Effect): nat
  {
    if e.Reply? then 1 else 0
  }

  function AcceptedWeight(e: Effect): nat
  {
    if e.Reply? && e.accepted then 1 else 0
  }

  /** The number of `reply` calls in a log. */
  function ReplyCount(es: seq<Effect>): nat
  {
    if es == [] then 0 else ReplyWeight(es[0]) + ReplyCount(es[1..])
  }

  /** The number of `reply` calls in a log that the platform accepted. */
  function AcceptedCount(es: seq<Effect>): nat
  {
    if es == [] then 0 else AcceptedWeight(es[0]) + AcceptedCount(es[1..])
  }

  lemma {:induction false} CountsAppend(a: seq<Effect>, b: seq<Effect>)
    ensures ReplyCount(a + b) == ReplyCount(a) + ReplyCount(b)
    ensures AcceptedCount(a + b) == AcceptedCount(a) + AcceptedCount(b)
  {
    if a == [] {
      assert a + b == b;
    } else {
      assert (a + b)[1..] == a[1..] + b;
      CountsAppend(a[1..], b);
    }
  }

  /** The bookkeeping every piece of the handler keeps: `attempts` counts the
      reply calls in the log, nothing defers, and `replied` becomes true
      exactly when some reply call is accepted. */
  ghost predicate Tracks(f: Flags, s: Step)
  {
    && s.flags.attempts == f.attempts + ReplyCount(s.log)
    && s.flags.deferred == f.deferred
    && s.flags.replied == (f.replied || AcceptedCount(s.log) > 0)
  }

  // ----- The building blocks -----

  /** `await interaction.reply({content, ephemeral})`: logged; it throws when
      the platform rejects it, and sets `replied` only when it is accepted. */
  function TryReply(f: Flags, w: World, content: Content, ephemeral: bool): (s: Step)
    ensures Tracks(f, s)
    ensures s.log == [Reply(content, ephemeral, !s.raised)]
    ensures s.raised <==> f.attempts in w.rejectedReplies
  {
    var accepted := f.attempts !in w.rejectedReplies;
    var log := [Reply(content, ephemeral, accepted)];
    assert log[1..] == [];
    Step(Flags(f.replied || accepted, f.deferred, f.attempts + 1), log, !accepted)
  }

  /** `first`, then `next` run from the flags `first` left. */
  function Then(first: Step, next: Step): (s: Step)
  {
    Step(next.flags, first.log + next.log, next.raised)
  }

  /** Sequencing keeps the bookkeeping. */
  lemma ThenTracks(f: Flags, first: Step, next: Step)
    requires Tracks(f, first) && Tracks(first.flags, next)
    ensures Tracks(f, Then(first, next))
  {
    CountsAppend(first.log, next.log);
  }

  /** A local `catch` answering with `content`, ephemerally. */
  function Catch(s: Step, w: World, content: Content): Step
  {
    if s.raised then Then(s, TryReply(s.flags, w, content, true)) else s
  }

  // ----- The commands -----

  /** The try-block of webhook-send and webhook-embed (index.js:94-104,
      130-147): build the client, send, then confirm. */
  function Deliver(f: Flags, w: World, username: string, payload: Payload, confirmation: Content): Step
  {
    var sent := Step(f, [Send(username, payload)], false);
    match w.send
    case SetupFailed => Step(f, [], true)
    case SendRejected => Step(f, [Send(username, payload)], true)
    case Delivered => Then(sent, TryReply(f, w, confirmation, true))
  }

  /** webhook-send (index.js:80-112). */
  function SendCommand(f: Flags, inv: Invocation, w: World): Step
  {
    if !Truthy(w.webhookUrl) then TryReply(f, w, NotConfigured, true)
    else
      var message := GetString(inv.options, "message");
      var username := OrDefault(GetString(inv.options, "username"), DefaultUsername);
      Catch(Deliver(f, w, username, Text(message), MessageSent), w, MessageFailed)
  }

  /** webhook-embed (index.js:114-155). */
  function EmbedCommand(f: Flags, inv: Invocation, w: World): Step
  {
    if !Truthy(w.webhookUrl) then TryReply(f, w, NotConfigured, true)
    else
      var title := GetString(inv.options, "title");
      var description := GetString(inv.options, "description");
      var color := OrDefault(GetString(inv.options, "color"), DefaultColor);
      var username := OrDefault(GetString(inv.options, "username"), DefaultUsername);
      Catch(Deliver(f, w, username, Embed(title, description, color, w.now), EmbedSent), w, EmbedFailed)
  }

  /** The report built from the fetched webhook (index.js:177-185). */
  function Report(hook: WebhookData): Content
  {
    InfoReport(hook.name, hook.channelId, hook.id, Truthy(hook.avatar), WholeSeconds(hook.createdTimestamp))
  }

  /** The try-block of webhook-info (index.js:168-190): parse the URL, throw
      when it does not match, fetch, then report. */
  function FetchAndReport(f: Flags, url: string, w: World): Step
  {
    match ParseWebhookUrl(url)
    case None => Step(f, [], true)
    case Some((id, token)) =>
      var fetched := Step(f, [Fetch(id, token)], false);
      match w.fetch
      case FetchRejected => Step(f, [Fetch(id, token)], true)
      case Fetched(hook) => Then(fetched, TryReply(f, w, Report(hook), true))
  }

  /** webhook-info (index.js:157-198). */
  function InfoCommand(f: Flags, w: World): Step
  {
    if !Truthy(w.webhookUrl) then TryReply(f, w, NotConfigured, true)
    else Catch(FetchAndReport(f, w.webhookUrl.value, w), w, InfoFailed)
  }

  /** The body of the outer try (index.js:22-198) once the command is known. */
  function RunCommand(f: Flags, c: Command, inv: Invocation, w: World): Step
    requires 0.0 <= w.random < 1.0
  {
    match c
    case Ping => TryReply(f, w, Pong, false)
    case Help => TryReply(f, w, HelpReply(HelpText.Message()), false)
    case Roll => TryReply(f, w, Rolled(DiceRoll(w.random)), false)
    case CoinFlip =>
      var result := CoinResult(w.random);
      TryReply(f, w, CoinLanded(CoinEmoji(result), result), false)
    case RandomNumber => TryReply(f, w, RandomPicked(RandomDraw(w.random)), false)
    case WebhookSend => SendCommand(f, inv, w)
    case WebhookEmbed => EmbedCommand(f, inv, w)
    case WebhookInfo => InfoCommand(f, w)
  }

  /** The outer catch (index.js:199-206): the generic error reply only when
      the interaction is neither replied nor deferred. */
  function Boundary(body: Step, w: World): Step
  {
    if !body.raised then body
    else if !body.flags.replied && !body.flags.deferred then Then(body, TryReply(body.flags, w, CommandFailed, true))
    else Step(body.flags, body.log, false)
  }

  /** The whole handler. A non-chat-input interaction and an unknown name do
      nothing. The result's `raised` flag is set when the boundary's own
      reply throws, i.e. the handler's promise rejects. */
  function Handle(f: Flags, inv: Invocation, w: World): Step
    requires 0.0 <= w.random < 1.0
  {
    if !inv.chatInput then Step(f, [], false)
    else match Lookup(inv.commandName)
      case None => Step(f, [], false)
      case Some(c) => Boundary(RunCommand(f, c, inv, w), w)
  }
}

module HandlerProperties {
  import opened Wrappers
  import opened Commands
  import opened Values
  import opened WebhookUrl
  import opened Handler

  /** The log contains a reply with this content. */
  ghost predicate Says(es: seq<Effect>, c: Content)
  {
    exists k :: 0 <= k < |es| && es[k].Reply? && es[k].content == c
  }

  predicate NoGatewayCall(es: seq<Effect>)
  {
    forall k :: 0 <= k < |es| ==> es[k].Reply?
  }

  /** What every command body guarantees: the bookkeeping, at most one
      accepted reply and none when it raises, replies with the command's
      visibility and never the generic error, and exactly one accepted reply
      when the platform accepts every reply. */
  ghost predicate WellBehaved(f: Flags, s: Step, ephemeral: bool, w: World)
  {
    && Tracks(f, s)
    && AcceptedCount(s.log) <= 1
    && (s.raised ==> AcceptedCount(s.log) == 0)
    && (forall k :: 0 <= k < |s.log| && s.log[k].Reply? ==>
          s.log[k].ephemeral == ephemeral && s.log[k].content != CommandFailed)
    && (w.rejectedReplies == {} ==> !s.raised && ReplyCount(s.log) == 1 && AcceptedCount(s.log) == 1)
  }

  /** The effects of the try/catch around a webhook delivery, case by case. */
  lemma DeliverCaughtLog(f: Flags, w: World, username: string, payload: Payload,
                         confirmation: Content, failure: Content)
    ensures var s := Catch(Deliver(f, w, username, payload, confirmation), w, failure);
      var a0 := f.attempts !in w.rejectedReplies;
      var a1 := f.attempts + 1 !in w.rejectedReplies;
      var send := Send(username, payload);
      && s.log ==
           (match w.send
            case SetupFailed => [Reply(failure, true, a0)]
            case SendRejected => [send, Reply(failure, true, a0)]
            case Delivered =>
              if a0 then [send, Reply(confirmation, true, true)]
              else [send, Reply(confirmation, true, false), Reply(failure, true, a1)])
      && s.raised == (if w.send == Delivered then !a0 && !a1 else !a0)
      && Tracks(f, s)
  {
    var d := Deliver(f, w, username, payload, confirmation);
    var send := Send(username, payload);
    assert [send][1..] == [];
    match w.send
    case SetupFailed =>
      ThenTracks(f, d, TryReply(d.flags, w, failure, true));
    case SendRejected =>
      ThenTracks(f, d, TryReply(d.flags, w, failure, true));
    case Delivered =>
      ThenTracks(f, Step(f, [send], false), TryReply(f, w, confirmation, true));
      if d.raised {
        ThenTracks(f, d, TryReply(d.flags, w, failure, true));
      }
  }

  /** The effects of the try/catch of webhook-info, case by case: no fetch
      unless the URL parses, and then a fetch with the parsed id and token. */
  lemma FetchCaughtLog(f: Flags, url: string, w: World)
    ensures var s := Catch(FetchAndReport(f, url, w), w, InfoFailed);
      var a0 := f.attempts !in w.rejectedReplies;
      var a1 := f.attempts + 1 !in w.rejectedReplies;
      && s.log ==
           (match ParseWebhookUrl(url)
            case None => [Reply(InfoFailed, true, a0)]
            case Some((id, token)) =>
              match w.fetch
              case FetchRejected => [Fetch(id, token), Reply(InfoFailed, true, a0)]
              case Fetched(hook) =>
                if a0 then [Fetch(id, token), Reply(Report(hook), true, true)]
                else [Fetch(id, token), Reply(Report(hook), true, false), Reply(InfoFailed, true, a1)])
      && s.raised == (if ParseWebhookUrl(url).Some? && w.fetch.Fetched? then !a0 && !a1 else !a0)
      && Tracks(f, s)
  {
  }

  /** Replies made directly by a command keep its promises. */
  lemma TryReplyWellBehaved(f: Flags, w: World, c: Content, ephemeral: bool)
    requires c != CommandFailed
    ensures WellBehaved(f, TryReply(f, w, c, ephemeral), ephemeral, w)
  {
  }

  lemma DeliverWellBehaved(f: Flags, w: World, username: string, payload: Payload,
                           confirmation: Content, failure: Content)
    requires confirmation != CommandFailed && failure != CommandFailed
    ensures WellBehaved(f, Catch(Deliver(f, w, username, payload, confirmation), w, failure), true, w)
  {
    DeliverCaughtLog(f, w, username, payload, confirmation, failure);
    var s := Catch(Deliver(f, w, username, payload, confirmation), w, failure);
    CountsOfLog(s.log);
  }

  lemma FetchWellBehaved(f: Flags, url: string, w: World)
    ensures WellBehaved(f, Catch(FetchAndReport(f, url, w), w, InfoFailed), true, w)
  {
    FetchCaughtLog(f, url, w);
    var s := Catch(FetchAndReport(f, url, w), w, InfoFailed);
    CountsOfLog(s.log);
  }

  /** Counts of logs of up to three effects, spelled out. */
  lemma CountsOfLog(es: seq<Effect>)
    requires 1 <= |es| <= 3
    ensures |es| == 1 ==> ReplyCount(es) == ReplyWeight(es[0]) && AcceptedCount(es) == AcceptedWeight(es[0])
    ensures |es| == 2 ==>
      && ReplyCount(es) == ReplyWeight(es[0]) + ReplyWeight(es[1])
      && AcceptedCount(es) == AcceptedWeight(es[0]) + AcceptedWeight(es[1])
    ensures |es| == 3 ==>
      && ReplyCount(es) == ReplyWeight(es[0]) + ReplyWeight(es[1]) + ReplyWeight(es[2])
      && AcceptedCount(es) == AcceptedWeight(es[0]) + AcceptedWeight(es[1]) + AcceptedWeight(es[2])
  {
  }

  /** Every command body keeps its promises; webhook commands reply
      ephemerally, the others publicly. */
  lemma CommandWellBehaved(f: Flags, c: Command, inv: Invocation, w: World)
    requires 0.0 <= w.random < 1.0
    ensures WellBehaved(f, RunCommand(f, c, inv, w), IsWebhookCommand(c), w)
  {
    match c
    case Ping => TryReplyWellBehaved(f, w, Pong, false);
    case Help => TryReplyWellBehaved(f, w, HelpReply(HelpText.Message()), false);
    case Roll => TryReplyWellBehaved(f, w, Rolled(DiceRoll(w.random)), false);
    case CoinFlip =>
      var result := CoinResult(w.random);
      TryReplyWellBehaved(f, w, CoinLanded(CoinEmoji(result), result), false);
    case RandomNumber => TryReplyWellBehaved(f, w, RandomPicked(RandomDraw(w.random)), false);
    case WebhookSend =>
      TryReplyWellBehaved(f, w, NotConfigured, true);
      var username := OrDefault(GetString(inv.options, "username"), DefaultUsername);
      DeliverWellBehaved(f, w, username, Text(GetString(inv.options, "message")), MessageSent, MessageFailed);
    case WebhookEmbed =>
      TryReplyWellBehaved(f, w, NotConfigured, true);
      var color := OrDefault(GetString(inv.options, "color"), DefaultColor);
      var username := OrDefault(GetString(inv.options, "username"), DefaultUsername);
      var payload := Embed(GetString(inv.options, "title"), GetString(inv.options, "description"), color, w.now);
      DeliverWellBehaved(f, w, username, payload, EmbedSent, EmbedFailed);
    case WebhookInfo =>
      TryReplyWellBehaved(f, w, NotConfigured, true);
      if Truthy(w.webhookUrl) {
        FetchWellBehaved(f, w.webhookUrl.value, w);
      }
  }

  // ----- The handler as a whole -----

  /** The outer catch adds at most the generic error reply to the body's log. */
  lemma BoundaryLog(f: Flags, body: Step, w: World)
    requires Tracks(f, body)
    ensures var s := Boundary(body, w);
      var fires := body.raised && !body.flags.replied && !body.flags.deferred;
      && s.log == body.log + (if fires then [Reply(CommandFailed, true, body.flags.attempts !in w.rejectedReplies)] else [])
      && s.raised == (fires && body.flags.attempts in w.rejectedReplies)
      && Tracks(f, s)
  {
    if body.raised && !body.flags.replied && !body.flags.deferred {
      ThenTracks(f, body, TryReply(body.flags, w, CommandFailed, true));
    } else {
      assert body.log + [] == body.log;
    }
  }

  /** An interaction that is not a chat-input command, or whose name is none
      of the eight, gets no reply and causes no gateway call. */
  lemma IgnoredInteraction(f: Flags, inv: Invocation, w: World)
    requires 0.0 <= w.random < 1.0
    requires !inv.chatInput || Lookup(inv.commandName).None?
    ensures Handle(f, inv, w) == Step(f, [], false)
  {
  }

  /** Every run of the handler keeps the bookkeeping: `attempts` counts the
      reply calls, `deferred` is untouched, and `replied` is set exactly by
      an accepted reply. */
  lemma HandleTracks(f: Flags, inv: Invocation, w: World)
    requires 0.0 <= w.random < 1.0
    ensures Tracks(f, Handle(f, inv, w))
  {
    if inv.chatInput && Lookup(inv.commandName).Some? {
      var c := Lookup(inv.commandName).value;
      CommandWellBehaved(f, c, inv, w);
      BoundaryLog(f, RunCommand(f, c, inv, w), w);
    }
  }

  /** When the platform accepts every reply, each of the eight commands makes
      exactly one reply call, it is accepted, it is not the generic error,
      and the handler completes normally. */
  lemma KnownCommandRepliesOnce(f: Flags, inv: Invocation, w: World)
    requires 0.0 <= w.random < 1.0
    requires inv.chatInput && Lookup(inv.commandName).Some?
    requires w.rejectedReplies == {}
    ensures var s := Handle(f, inv, w);
      && !s.raised && s.flags.replied
      && ReplyCount(s.log) == 1 && AcceptedCount(s.log) == 1
      && !Says(s.log, CommandFailed)
  {
    var c := Lookup(inv.commandName).value;
    CommandWellBehaved(f, c, inv, w);
  }

  /** An interaction that starts unreplied is never answered twice: at most
      one reply call is accepted, and `replied` ends true exactly when one
      was. */
  lemma AtMostOneAcceptedReply(f: Flags, inv: Invocation, w: World)
    requires 0.0 <= w.random < 1.0
    requires !f.replied
    ensures var s := Handle(f, inv, w);
      && AcceptedCount(s.log) <= 1
      && (s.flags.replied <==> AcceptedCount(s.log) == 1)
  {
    if inv.chatInput && Lookup(inv.commandName).Some? {
      var c := Lookup(inv.commandName).value;
      var body := RunCommand(f, c, inv, w);
      CommandWellBehaved(f, c, inv, w);
      BoundaryLog(f, body, w);
      var extra := Boundary(body, w).log[|body.log|..];
      assert Boundary(body, w).log == body.log + extra;
      CountsAppend(body.log, extra);
      if extra != [] {
        CountsOfLog(extra);
      }
    }
  }

  /** The outer catch sends the generic error reply exactly when the command
      threw and left the interaction neither replied nor deferred; so a
      command that already replied, or an interaction that was deferred,
      never gets it. */
  lemma FallbackGuard(f: Flags, inv: Invocation, w: World)
    requires 0.0 <= w.random < 1.0
    requires inv.chatInput && Lookup(inv.commandName).Some?
    ensures var body := RunCommand(f, Lookup(inv.commandName).value, inv, w);
      Says(Handle(f, inv, w).log, CommandFailed) <==>
        body.raised && !body.flags.replied && !body.flags.deferred
  {
    var c := Lookup(inv.commandName).value;
    var body := RunCommand(f, c, inv, w);
    CommandWellBehaved(f, c, inv, w);
    BoundaryLog(f, body, w);
    var s := Handle(f, inv, w);
    if body.raised && !body.flags.replied && !body.flags.deferred {
      assert s.log[|body.log|].content == CommandFailed;
    }
  }

  /** ping, help, roll, coinflip and random reply publicly; webhook-send,
      webhook-embed and webhook-info reply ephemerally on every path; the
      generic error reply is ephemeral. */
  lemma ReplyVisibility(f: Flags, inv: Invocation, w: World)
    requires 0.0 <= w.random < 1.0
    requires inv.chatInput && Lookup(inv.commandName).Some?
    ensures var s := Handle(f, inv, w);
      forall k :: 0 <= k < |s.log| && s.log[k].Reply? ==>
        (s.log[k].ephemeral <==> IsWebhookCommand(Lookup(inv.commandName).value) || s.log[k].content == CommandFailed)
  {
    var c := Lookup(inv.commandName).value;
    CommandWellBehaved(f, c, inv, w);
    BoundaryLog(f, RunCommand(f, c, inv, w), w);
  }

  /** Without a usable webhook URL (unset or empty), each webhook command
      answers "not configured" ephemerally and calls no gateway. */
  lemma UnconfiguredWebhook(f: Flags, inv: Invocation, w: World)
    requires 0.0 <= w.random < 1.0
    requires inv.chatInput && Lookup(inv.commandName).Some?
    requires IsWebhookCommand(Lookup(inv.commandName).value) && !Truthy(w.webhookUrl)
    ensures var s := Handle(f, inv, w);
      && NoGatewayCall(s.log)
      && |s.log| >= 1 && s.log[0] == Reply(NotConfigured, true, f.attempts !in w.rejectedReplies)
      && (w.rejectedReplies == {} ==> s.log == [Reply(NotConfigured, true, true)])
  {
    var c := Lookup(inv.commandName).value;
    BoundaryLog(f, RunCommand(f, c, inv, w), w);
  }

  /** webhook-info parses the URL before anything else: it fetches only when
      the parse succeeds, with the parsed id and token; when the parse fails
      its first reply is the fetch-failure message and no gateway is called. */
  lemma InfoParsesBeforeFetch(f: Flags, inv: Invocation, w: World)
    requires 0.0 <= w.random < 1.0
    requires inv.chatInput && Lookup(inv.commandName) == Some(WebhookInfo)
    requires Truthy(w.webhookUrl)
    ensures var s := Handle(f, inv, w);
      var parsed := ParseWebhookUrl(w.webhookUrl.value);
      && ((exists k :: 0 <= k < |s.log| && s.log[k].Fetch?) <==> parsed.Some?)
      && (forall k :: 0 <= k < |s.log| && s.log[k].Fetch? ==> parsed == Some((s.log[k].id, s.log[k].token)))
      && (parsed.None? ==>
            NoGatewayCall(s.log) && s.log[0] == Reply(InfoFailed, true, f.attempts !in w.rejectedReplies))
  {
    var url := w.webhookUrl.value;
    FetchCaughtLog(f, url, w);
    var body := RunCommand(f, WebhookInfo, inv, w);
    FetchWellBehaved(f, url, w);
    BoundaryLog(f, body, w);
    if ParseWebhookUrl(url).Some? {
      assert Handle(f, inv, w).log[0].Fetch?;
    }
  }

  /** When `webhook.send` resolves, the confirmation reply throws and the
      next reply is accepted, the local catch still answers that the message
      could not be sent, and nothing escapes. */
  lemma ConfirmationRejectedReportsFailure(f: Flags, inv: Invocation, w: World)
    requires 0.0 <= w.random < 1.0
    requires inv.chatInput && Lookup(inv.commandName) == Some(WebhookSend)
    requires Truthy(w.webhookUrl) && w.send == Delivered
    requires f.attempts in w.rejectedReplies && f.attempts + 1 !in w.rejectedReplies
    ensures var s := Handle(f, inv, w);
      var username := OrDefault(GetString(inv.options, "username"), DefaultUsername);
      && s.log == [Send(username, Text(GetString(inv.options, "message"))),
                   Reply(MessageSent, true, false), Reply(MessageFailed, true, true)]
      && !s.raised && s.flags.replied
  {
    var username := OrDefault(GetString(inv.options, "username"), DefaultUsername);
    DeliverCaughtLog(f, w, username, Text(GetString(inv.options, "message")), MessageSent, MessageFailed);
  }

  /** What webhook-send and webhook-embed hand to `webhook.send` once the
      client is built (index.js:91-99, 127-141): the `username` option, or
      "Webhook Bot" when it is absent or empty; for a message, the `message`
      option as given (null when absent); for an embed, the `title` and
      `description` options as given, the `color` option or "#0099ff", and
      the clock reading as its timestamp. Nothing is sent before it. */
  lemma SentPayload(f: Flags, inv: Invocation, w: World)
    requires 0.0 <= w.random < 1.0
    requires inv.chatInput && Lookup(inv.commandName).Some?
    requires Lookup(inv.commandName).value in {WebhookSend, WebhookEmbed}
    requires Truthy(w.webhookUrl) && w.send != SetupFailed
    ensures var s := Handle(f, inv, w);
      var o := inv.options;
      var username := if "username" in o && o["username"] != "" then o["username"] else "Webhook Bot";
      var color := if "color" in o && o["color"] != "" then o["color"] else "#0099ff";
      var title := if "title" in o then Some(o["title"]) else None;
      var description := if "description" in o then Some(o["description"]) else None;
      var message := if "message" in o then Some(o["message"]) else None;
      && |s.log| >= 1
      && s.log[0] == Send(username,
           if Lookup(inv.commandName) == Some(WebhookSend) then Text(message)
           else Embed(title, description, color, w.now))
  {
  }

  /** When the webhook cannot be used (the client or embed cannot be built,
      or `send` rejects) and replies are accepted, webhook-send and
      webhook-embed answer once, ephemerally, with their own failure
      message, and the generic error is not sent. */
  lemma FailedDeliveryReported(f: Flags, inv: Invocation, w: World)
    requires 0.0 <= w.random < 1.0
    requires inv.chatInput && Lookup(inv.commandName).Some?
    requires Lookup(inv.commandName).value in {WebhookSend, WebhookEmbed}
    requires Truthy(w.webhookUrl) && w.send != Delivered && w.rejectedReplies == {}
    ensures var s := Handle(f, inv, w);
      var failure := if Lookup(inv.commandName) == Some(WebhookSend) then MessageFailed else EmbedFailed;
      && ReplyCount(s.log) == 1
      && |s.log| >= 1 && s.log[|s.log| - 1] == Reply(failure, true, true)
      && !Says(s.log, CommandFailed) && !s.raised
  {
    var c := Lookup(inv.commandName).value;
    CommandWellBehaved(f, c, inv, w);
    var username := OrDefault(GetString(inv.options, "username"), DefaultUsername);
    var color := OrDefault(GetString(inv.options, "color"), DefaultColor);
    DeliverCaughtLog(f, w, username, Text(GetString(inv.options, "message")), MessageSent, MessageFailed);
    DeliverCaughtLog(f, w, username, Embed(GetString(inv.options, "title"), GetString(inv.options, "description"), color, w.now),
                     EmbedSent, EmbedFailed);
  }
}
