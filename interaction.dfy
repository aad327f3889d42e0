/** The handler as the step-by-step procedure it is in index.js:16-208: an
    interaction object whose `replied` and `deferred` flags each `reply`
    call may change and the outer catch reads. The methods return early where
    the source returns; each returns a `raised` flag for an exception that
    escapes it, and a caller branches on a local `failed` flag where the
    source has a `catch`. Each method is proved to do exactly what
    the corresponding function of module Handler describes, so the
    properties proved there (module HandlerProperties) hold of it. */
module Interactions {
  import opened Wrappers
  import opened Commands
  import opened Values
  import opened Handler
  import HelpText

  class Interaction {
    const chatInput: bool
    const commandName: string
    const options: map<string, string>
    var replied: bool
    var deferred: bool
    /** How many `reply` calls were made so far: the platform's answer to a
        call is looked up by this number. */
    var attempts: nat
    /** Every reply call and gateway call made while handling it, in order. */
    var log: seq<Effect>

    /** A freshly delivered interaction: not replied, not deferred. */
    constructor (chatInput: bool, commandName: string, options: map<string, string>)
      ensures this.chatInput == chatInput && this.commandName == commandName && this.options == options
      ensures !replied && !deferred && attempts == 0 && log == []
    {
      this.chatInput := chatInput;
      this.commandName := commandName;
      this.options := options;
      replied, deferred, attempts, log := false, false, 0, [];
    }

    function State(): Flags
      reads this
    {
      Flags(replied, deferred, attempts)
    }

    function AsInvocation(): Invocation
    {
      Invocation(chatInput, commandName, options)
    }

    /** `await interaction.reply({content, ephemeral})`: returns true when the
        call throws. */
    method Reply(w: World, content: Content, ephemeral: bool) returns (threw: bool)
      modifies this
      ensures var s := TryReply(old(State()), w, content, ephemeral);
        State() == s.flags && log == old(log) + s.log && threw == s.raised
    {
      threw := attempts in w.rejectedReplies;
      log := log + [Effect.Reply(content, ephemeral, !threw)];
      attempts := attempts + 1;
      if !threw {
        replied := true;
      }
    }

    /** A call to the webhook gateway: recorded, nothing else changes. */
    method CallGateway(e: Effect)
      requires !e.Reply?
      modifies this
      ensures State() == old(State()) && log == old(log) + [e]
    {
      log := log + [e];
    }
  }

  /** The try/catch shared by webhook-send and webhook-embed: build the
      client, send, confirm; on any throw, answer with `failure`. */
  method DeliverAndConfirm(ix: Interaction, w: World, username: string, payload: Payload,
                           confirmation: Content, failure: Content) returns (raised: bool)
    modifies ix
    ensures var s := Catch(Deliver(old(ix.State()), w, username, payload, confirmation), w, failure);
      ix.State() == s.flags && ix.log == old(ix.log) + s.log && raised == s.raised
  {
    var failed := true;
    if w.send != SetupFailed {
      ix.CallGateway(Send(username, payload));
      if w.send == Delivered {
        failed := ix.Reply(w, confirmation, true);
      }
    }
    if failed {
      raised := ix.Reply(w, failure, true);
    } else {
      raised := false;
    }
  }

  /** webhook-send (index.js:80-112). */
  method SendViaWebhook(ix: Interaction, w: World) returns (raised: bool)
    modifies ix
    ensures var s := SendCommand(old(ix.State()), ix.AsInvocation(), w);
      ix.State() == s.flags && ix.log == old(ix.log) + s.log && raised == s.raised
  {
    if !Truthy(w.webhookUrl) {
      raised := ix.Reply(w, NotConfigured, true);
      return;
    }
    var message := GetString(ix.options, "message");
    var username := OrDefault(GetString(ix.options, "username"), DefaultUsername);
    raised := DeliverAndConfirm(ix, w, username, Text(message), MessageSent, MessageFailed);
  }

  /** webhook-embed (index.js:114-155). */
  method SendEmbedViaWebhook(ix: Interaction, w: World) returns (raised: bool)
    modifies ix
    ensures var s := EmbedCommand(old(ix.State()), ix.AsInvocation(), w);
      ix.State() == s.flags && ix.log == old(ix.log) + s.log && raised == s.raised
  {
    if !Truthy(w.webhookUrl) {
      raised := ix.Reply(w, NotConfigured, true);
      return;
    }
    var title := GetString(ix.options, "title");
    var description := GetString(ix.options, "description");
    var color := OrDefault(GetString(ix.options, "color"), DefaultColor);
    var username := OrDefault(GetString(ix.options, "username"), DefaultUsername);
    raised := DeliverAndConfirm(ix, w, username, Embed(title, description, color, w.now), EmbedSent, EmbedFailed);
  }

  /** webhook-info (index.js:157-198). */
  method ShowWebhookInfo(ix: Interaction, w: World) returns (raised: bool)
    modifies ix
    ensures var s := InfoCommand(old(ix.State()), w);
      ix.State() == s.flags && ix.log == old(ix.log) + s.log && raised == s.raised
  {
    if !Truthy(w.webhookUrl) {
      raised := ix.Reply(w, NotConfigured, true);
      return;
    }
    var failed := true;
    var parts := WebhookUrl.ParseWebhookUrl(w.webhookUrl.value);
    if parts.Some? {
      var (id, token) := parts.value;
      ix.CallGateway(Fetch(id, token));
      if w.fetch.Fetched? {
        failed := ix.Reply(w, Report(w.fetch.hook), true);
      }
    }
    if failed {
      raised := ix.Reply(w, InfoFailed, true);
    } else {
      raised := false;
    }
  }

  /** The if/else-if chain of the outer try (index.js:22-198). */
  method RunKnownCommand(ix: Interaction, c: Command, w: World) returns (raised: bool)
    requires 0.0 <= w.random < 1.0
    modifies ix
    ensures var s := RunCommand(old(ix.State()), c, ix.AsInvocation(), w);
      ix.State() == s.flags && ix.log == old(ix.log) + s.log && raised == s.raised
  {
    match c
    case Ping => raised := ix.Reply(w, Pong, false);
    case Help => raised := ix.Reply(w, HelpReply(HelpText.Message()), false);
    case Roll => raised := ix.Reply(w, Rolled(DiceRoll(w.random)), false);
    case CoinFlip =>
      var result := CoinResult(w.random);
      raised := ix.Reply(w, CoinLanded(CoinEmoji(result), result), false);
    case RandomNumber => raised := ix.Reply(w, RandomPicked(RandomDraw(w.random)), false);
    case WebhookSend => raised := SendViaWebhook(ix, w);
    case WebhookEmbed => raised := SendEmbedViaWebhook(ix, w);
    case WebhookInfo => raised := ShowWebhookInfo(ix, w);
  }

  /** The InteractionCreate listener (index.js:16-208). Returns true when the
      listener's promise rejects, i.e. the outer catch's own reply threw. */
  method OnInteractionCreate(ix: Interaction, w: World) returns (rejected: bool)
    requires 0.0 <= w.random < 1.0
    modifies ix
    ensures var s := Handle(old(ix.State()), ix.AsInvocation(), w);
      ix.State() == s.flags && ix.log == old(ix.log) + s.log && rejected == s.raised
  {
    rejected := false;
    if !ix.chatInput {
      return;
    }
    var command := Lookup(ix.commandName);
    if command.None? {
      assert ix.log == old(ix.log) + [];
      return;
    }
    var raised := RunKnownCommand(ix, command.value, w);
    if raised && !ix.replied && !ix.deferred {
      rejected := ix.Reply(w, CommandFailed, true);
    }
  }
}
