/**
 * The manager commands: slash commands a server manager uses to remove, reset
 * and copy characters, to set the server's defaults and backend credentials,
 * and to keep the server's block list and a character's hunted users.
 *
 * Each command is a method that changes the store and the Discord side and
 * returns the replies it sends back, in order. What the command learns from
 * outside (the character a name or prefix designates, the answers of Discord
 * and of the chat backends, the current time) comes in as parameters.
 */
module ManagerCommands {
  import opened Wrappers
  import opened ULong
  import opened KeyedList
  import opened Storage
  import opened DiscordApi
  import MessagesFormat
  import Greeting
  import Homoglyph
  import Reset

  /** The user who ran a command; `bestName` is the user's display name, empty when unknown. */
  datatype DiscordUser = DiscordUser(id: ulong, mention: string, bestName: string)

  /** Where and by whom a command was run. */
  datatype Context = Context(guildId: ulong, channelId: ulong, user: DiscordUser, isTextChannel: bool, isIntegrationChannel: bool)

  /** The replies a command sends back. */
  datatype Reply =
    | Success
    | CharacterNotFound
    | SomethingWentWrong
    | FailedToDeleteWebhook
    | AllRemoved(wholeServer: bool)
    | RandomReplyChanceChanged(before: real, after: real)
    | MissingMsgPlaceholder
    | WrongRefMsgFormat
    | FormatAccepted(format: string, preview: string)
    | SignInFailed(message: string)
    | WrongUserOrUserId
    | WrongUserId
    | AlreadyBlocked
    | UserNotFound
    | NoApiBackend
    | CaiUnavailable
    | FailedToCreateChat
    | FailedToAuthorize
    | FailedToResetChat(errorReason: string)
    | WebhookNotFound
    | FailedToSendGreeting
    | FailedToCopy
    | FailedToCreateWebhook
    | Copied(characterName: string)
    | SpecifyUser
    | HuntTargetNotFound
    | AlreadyHunted
    | Hunting(characterName: string, username: string)
    | NotHunted
    | NotHuntingAnymore(characterName: string, username: string)

  /** The OpenAI models a server can pick. */
  datatype OpenAiModel = GPT_3_5_turbo | GPT_4

  /** The model name sent to the OpenAI API. */
  function OpenAiModelName(m: OpenAiModel): (name: string)
    ensures m == GPT_3_5_turbo <==> name == "gpt-3.5-turbo"
    ensures m == GPT_4 <==> name == "gpt-4"
  {
    match m
    case GPT_3_5_turbo => "gpt-3.5-turbo"
    case GPT_4 => "gpt-4"
  }

  /** Aisekai's answer to signing in with an e-mail and a password. */
  datatype AuthResponse = AuthOk(expToken: string, refreshToken: string) | AuthFailed(message: string)

  /** The CharacterAI token: the webhook's own, else the server's, else empty. */
  function CaiToken(cw: CharacterWebhook, g: Guild): string
  {
    Reset.FirstSome([cw.personalApiToken, g.caiUserToken], "")
  }

  /** The webhook's own CharacterAI token wins over the server's, and the server's over none. */
  lemma CaiTokenCascade(cw: CharacterWebhook, g: Guild)
    ensures cw.personalApiToken.Some? ==> CaiToken(cw, g) == cw.personalApiToken.value
    ensures cw.personalApiToken.None? && g.caiUserToken.Some? ==> CaiToken(cw, g) == g.caiUserToken.value
    ensures cw.personalApiToken.None? && g.caiUserToken.None? ==> CaiToken(cw, g) == ""
  {
    var xs := [cw.personalApiToken, g.caiUserToken];
    assert xs[0] == cw.personalApiToken && xs[1] == g.caiUserToken;
  }

  /**
   * The user a block or unblock command names: the user picked, else the id
   * typed, when it parses. One of the two is given.
   */
  function NamedUser(user: Option<DiscordUser>, userId: Option<string>): Option<ulong>
    requires user.Some? || userId.Some?
  {
    if user.Some? then Some(user.value.id) else TryParse(userId.value)
  }

  /** Adding a new key and deleting it again gives the map back. */
  lemma AddThenDelete<K, V>(m: map<K, V>, k: K, v: V)
    requires k !in m
    ensures m[k := v] - {k} == m
  {
  }

  /** Removing keys one at a time is removing them all at once. */
  lemma MapMinusStep<K, V>(m: map<K, V>, done: set<K>, more: set<K>)
    ensures (m - done) - more == m - (done + more)
  {
  }

  /**
   * The Discord webhooks `clear-characters` deletes: those of the tracked
   * webhooks `tracked` that are among the listed Discord webhooks `remote` and
   * whose delete does not fail.
   */
  function Deleted(tracked: set<ulong>, remote: set<ulong>, failing: set<ulong>): set<ulong>
  {
    set k | k in tracked && k in remote && k !in failing
  }

  lemma DeletedMembers(gone: set<ulong>, tracked: set<ulong>, remote: set<ulong>, failing: set<ulong>)
    requires forall k :: k in gone <==> k in tracked && k in remote && k !in failing
    ensures gone == Deleted(tracked, remote, failing)
  {
  }

  lemma SameMembers(a: set<ulong>, b: set<ulong>)
    requires forall k :: k in a <==> k in b
    ensures a == b
  {
  }

  /** What a CharacterAI new-chat request carries. */
  datatype CaiRequest = CaiRequest(characterId: string, token: string, plusMode: bool)

  /** The reply that ends an Aisekai reset: the answer of the last request, or the failed refresh. */
  function AisekaiReply(trace: seq<Reset.Attempt>): Reply
    requires Reset.Decisive(trace)
  {
    var last := trace[Reset.FirstStop(trace)];
    if last.response.ResetOk? then Success
    else if last.response.code == Reset.UNAUTHORIZED then FailedToAuthorize
    else FailedToResetChat(last.response.errorReason)
  }

  /** The CharacterAI request a reset of `cw`, in the guild `g`, sends. */
  function CaiRequestOf(cw: CharacterWebhook, g: Guild): (r: CaiRequest)
    ensures r.characterId == cw.characterId && r.token == CaiToken(cw, g)
    ensures r.plusMode <==> g.caiPlusMode == Some(true)
  {
    CaiRequest(cw.characterId, CaiToken(cw, g), g.caiPlusMode.GetOr(false))
  }

  /** A chat reset: whether it worked, the webhook and the character after it, and the replies. */
  datatype ResetResult = ResetResult(ok: bool, webhook: CharacterWebhook, character: Character, replies: seq<Reply>)

  /**
   * Resetting the chat of `cw`, whose guild is `g` and whose character is `c`,
   * by its backend. A reset that fails changes nothing. CharacterAI (when the
   * service is up) replaces the active chat by the one created for the request;
   * Aisekai gives the character the greeting of the answer that ends the run,
   * when that answer is a success; OpenAI, KoboldAI and Horde start the stored
   * history over with the greeting alone and say nothing; a webhook without a
   * backend is not reset. Only the remote backends confirm a reset with a reply.
   */
  function ResetChat(cw: CharacterWebhook, g: Guild, c: Character, caiAvailable: bool,
                     newChat: CaiRequest -> Option<string>, trace: seq<Reset.Attempt>): (r: ResetResult)
    requires cw.integrationType == Aisekai ==> Reset.Decisive(trace)
    ensures !r.ok ==> r.webhook == cw && r.character == c && |r.replies| == 1 && r.replies != [Success]
    ensures r.ok && !KeepsLocalHistory(cw.integrationType) ==> r.replies == [Success]
    ensures KeepsLocalHistory(cw.integrationType) ==>
      r.ok && r.character == c && r.webhook == cw.(storedHistoryMessages := GreetingHistory(c.greeting)) && r.replies == []
    ensures cw.integrationType == Empty ==> !r.ok && r.replies == [NoApiBackend]
    ensures cw.integrationType == CharacterAI ==>
      var created := newChat(CaiRequestOf(cw, g));
      r.character == c
      && (r.ok <==> caiAvailable && created.Some?)
      && (r.ok ==> r.webhook == cw.(activeHistoryId := created))
      && (!caiAvailable ==> r.replies == [CaiUnavailable])
    ensures cw.integrationType == Aisekai ==>
      var last := trace[Reset.FirstStop(trace)];
      r.webhook == cw
      && (r.ok <==> last.response.ResetOk?)
      && (r.ok ==> r.character == c.(greeting := last.response.greeting))
      && r.replies == [AisekaiReply(trace)]
  {
    match cw.integrationType
    case CharacterAI => CaiReset(cw, g, c, caiAvailable, newChat)
    case Aisekai => AisekaiReset(cw, g, c, trace)
    case Empty => ResetResult(false, cw, c, [NoApiBackend])
    case _ => ResetResult(true, cw.(storedHistoryMessages := GreetingHistory(c.greeting)), c, [])
  }

  /** A CharacterAI reset: the new chat, when the service is up and creates one, becomes the active chat. */
  function CaiReset(cw: CharacterWebhook, g: Guild, c: Character, caiAvailable: bool,
                    newChat: CaiRequest -> Option<string>): (r: ResetResult)
    ensures var created := newChat(CaiRequestOf(cw, g));
      && r.character == c
      && (r.ok <==> caiAvailable && created.Some?)
      && (r.ok ==> r.webhook == cw.(activeHistoryId := created) && r.replies == [Success])
      && (!r.ok ==> r.webhook == cw && r.replies == [if caiAvailable then FailedToCreateChat else CaiUnavailable])
  {
    var created := if caiAvailable then newChat(CaiRequestOf(cw, g)) else None;
    if created.Some? then ResetResult(true, cw.(activeHistoryId := created), c, [Success])
    else ResetResult(false, cw, c, [if caiAvailable then FailedToCreateChat else CaiUnavailable])
  }

  /**
   * An Aisekai reset with the server's token: the character takes the greeting
   * of the answer that ends the run when that answer is a success.
   */
  function AisekaiReset(cw: CharacterWebhook, g: Guild, c: Character, trace: seq<Reset.Attempt>): (r: ResetResult)
    requires Reset.Decisive(trace)
    ensures var last := trace[Reset.FirstStop(trace)];
      && r.webhook == cw
      && (r.ok <==> last.response.ResetOk?)
      && (r.ok ==> r.character == c.(greeting := last.response.greeting))
      && (!r.ok ==> r.character == c)
      && r.replies == [AisekaiReply(trace)]
  {
    var run := Reset.RunAisekai(g.aisekaiAuthToken.GetOr(""), cw.activeHistoryId.GetOr(""), trace);
    Reset.RunAisekaiStopsAtFirstStop(g.aisekaiAuthToken.GetOr(""), cw.activeHistoryId.GetOr(""), trace);
    if run.greeting.Some? then ResetResult(true, cw, c.(greeting := run.greeting.value), [Success])
    else ResetResult(false, cw, c, [AisekaiReply(trace)])
  }

  class ManagerCommands {
    const db: StorageContext
    const discord: Discord

    constructor (db: StorageContext, discord: Discord)
      ensures this.db == db && this.discord == discord
    {
      this.db := db;
      this.discord := discord;
    }

    /** The guild of the command, tracked, with one of its settings changed. */
    function GuildWith(ctx: Context, change: Guild -> Guild): map<ulong, Guild>
      reads db
    {
      var t := TrackGuild(db.guilds, ctx.guildId);
      t[ctx.guildId := change(t[ctx.guildId])]
    }

    /**
     * `delete-character`: the character's record is removed whether or not its
     * Discord webhook could be deleted; a failed delete is reported before the
     * success.
     */
    method DeleteCharacter(ctx: Context, target: Option<ulong>, remoteFails: bool) returns (replies: seq<Reply>)
      requires db.Valid() && (target.Some? ==> target.value in db.characterWebhooks)
      modifies db`characterWebhooks, discord`webhooks
      ensures db.Valid()
      ensures target.None? ==>
        replies == [CharacterNotFound] && db.characterWebhooks == old(db.characterWebhooks) && discord.webhooks == old(discord.webhooks)
      ensures target.Some? && !ctx.isTextChannel ==>
        replies == [SomethingWentWrong] && db.characterWebhooks == old(db.characterWebhooks) && discord.webhooks == old(discord.webhooks)
      ensures target.Some? && ctx.isTextChannel ==>
        && db.characterWebhooks == old(db.characterWebhooks) - {target.value}
        && discord.webhooks == (if remoteFails then old(discord.webhooks) else old(discord.webhooks) - {target.value})
        && replies == (if remoteFails then [FailedToDeleteWebhook, Success] else [Success])
    {
      if target.None? {
        return [CharacterNotFound];
      }
      if !ctx.isTextChannel {
        return [SomethingWentWrong];
      }
      var id := target.value;
      replies := [];
      if remoteFails {
        replies := [FailedToDeleteWebhook];
      } else if id in discord.webhooks {
        discord.DeleteWebhook(id);
      }
      db.characterWebhooks := db.characterWebhooks - {id};
      replies := replies + [Success];
    }

    /** The tracked character webhooks `clear-characters` removes: those of the channel, or of the whole server. */
    function TrackedInScope(ctx: Context, wholeServer: bool): (ids: set<ulong>)
      reads db
      requires db.Valid()
      ensures forall id :: id in ids <==>
        id in db.characterWebhooks
        && (if wholeServer then db.channels[db.characterWebhooks[id].channelId].guildId == ctx.guildId
            else db.characterWebhooks[id].channelId == ctx.channelId)
    {
      set id | id in db.characterWebhooks
        && (if wholeServer then db.channels[db.characterWebhooks[id].channelId].guildId == ctx.guildId
            else db.characterWebhooks[id].channelId == ctx.channelId)
    }

    /** The Discord webhooks of the channel, or of the whole server. */
    function RemoteInScope(ctx: Context, wholeServer: bool): (ids: set<ulong>)
      reads discord
      ensures forall id :: id in ids <==>
        id in discord.webhooks
        && (if wholeServer then discord.webhooks[id].guildId == ctx.guildId else discord.webhooks[id].channelId == ctx.channelId)
    {
      set id | id in discord.webhooks
        && (if wholeServer then discord.webhooks[id].guildId == ctx.guildId else discord.webhooks[id].channelId == ctx.channelId)
    }

    /** The webhooks of a channel of the server are among the webhooks of the server. */
    lemma ChannelScopeWithinServer(ctx: Context)
      requires db.Valid() && ctx.channelId in db.channels && db.channels[ctx.channelId].guildId == ctx.guildId
      ensures TrackedInScope(ctx, false) <= TrackedInScope(ctx, true)
    {
    }

    /**
     * `clear-characters`: every tracked character webhook of the channel (or of
     * the server) is removed from the store, whatever happens to its Discord
     * webhook; a Discord webhook is deleted only when it is one of them. When a
     * delete fails the command ends with that failure and says nothing.
     */
    method ClearCharacters(ctx: Context, wholeServer: bool, failing: set<ulong>) returns (replies: seq<Reply>)
      requires db.Valid()
      modifies db`characterWebhooks, discord`webhooks
      ensures db.Valid()
      ensures db.characterWebhooks == old(db.characterWebhooks) - old(TrackedInScope(ctx, wholeServer))
      ensures forall id | id in db.characterWebhooks :: id !in old(TrackedInScope(ctx, wholeServer))
      ensures discord.webhooks == old(discord.webhooks)
        - Deleted(old(TrackedInScope(ctx, wholeServer)), old(RemoteInScope(ctx, wholeServer)), failing)
      ensures forall id | id in old(discord.webhooks) && id !in old(db.characterWebhooks) ::
        id in discord.webhooks && discord.webhooks[id] == old(discord.webhooks[id])
      ensures var failed := exists id :: id in old(TrackedInScope(ctx, wholeServer)) && id in old(RemoteInScope(ctx, wholeServer)) && id in failing;
        replies == if failed then [] else [AllRemoved(wholeServer)]
    {
      var tracked := TrackedInScope(ctx, wholeServer);
      var remote := RemoteInScope(ctx, wholeServer);
      var failed := RemoveAllTracked(tracked, remote, failing);
      replies := if failed then [] else [AllRemoved(wholeServer)];
    }

    /**
     * The loop of `clear-characters` over the tracked webhooks `tracked`, with
     * the Discord webhooks `remote` listed before it started; `failing` are the
     * webhooks whose delete fails.
     */
    method RemoveAllTracked(tracked: set<ulong>, remote: set<ulong>, failing: set<ulong>) returns (failed: bool)
      requires db.Valid() && tracked <= db.characterWebhooks.Keys
      modifies db`characterWebhooks, discord`webhooks
      ensures db.Valid()
      ensures db.characterWebhooks == old(db.characterWebhooks) - tracked
      ensures discord.webhooks == old(discord.webhooks) - Deleted(tracked, remote, failing)
      ensures failed <==> exists k :: k in tracked && k in remote && k in failing
    {
      var todo := tracked;
      failed := false;
      ghost var removed: set<ulong> := {};
      ghost var gone: set<ulong> := {};
      while todo != {}
        invariant todo <= tracked
        invariant forall k :: k in removed <==> k in tracked && k !in todo
        invariant forall k :: k in gone <==> k in removed && k in remote && k !in failing
        invariant failed <==> exists k :: k in removed && k in remote && k in failing
        invariant db.Valid()
        invariant db.characterWebhooks == old(db.characterWebhooks) - removed
        invariant discord.webhooks == old(discord.webhooks) - gone
        decreases |todo|
      {
        var id :| id in todo;
        ghost var now := if id in remote && id !in failing then {id} else {};
        MapMinusStep(old(discord.webhooks), gone, now);
        MapMinusStep(old(db.characterWebhooks), removed, {id});
        var failedHere := RemoveTracked(id, id in remote, id in failing);
        failed := failed || failedHere;
        gone := gone + now;
        removed := removed + {id};
        todo := todo - {id};
      }
      SameMembers(removed, tracked);
      DeletedMembers(gone, tracked, remote, failing);
    }

    /**
     * One webhook of `clear-characters`: its Discord webhook, when there is one,
     * is deleted unless the delete fails, and its record is removed in any case.
     */
    method RemoveTracked(id: ulong, inRemote: bool, fails: bool) returns (failed: bool)
      requires db.Valid()
      modifies db`characterWebhooks, discord`webhooks
      ensures db.Valid()
      ensures db.characterWebhooks == old(db.characterWebhooks) - {id}
      ensures discord.webhooks == old(discord.webhooks) - (if inRemote && !fails then {id} else {})
      ensures failed == (inRemote && fails)
    {
      failed := false;
      if inRemote {
        if fails {
          failed := true;
        } else {
          discord.DeleteWebhook(id);
        }
      }
      assert (inRemote && !fails) || discord.webhooks == old(discord.webhooks) - {};
      RemoveWebhooksConsistent(db.guilds, db.channels, db.characters, db.characterWebhooks, {id});
      db.characterWebhooks := db.characterWebhooks - {id};
    }

    /** `set-channel-random-reply-chance`: the channel's chance of answering at random. */
    method SetChannelRandomReplyChance(ctx: Context, chance: real) returns (replies: seq<Reply>)
      requires db.Valid()
      modifies db`guilds, db`channels
      ensures db.Valid()
      ensures db.guilds == TrackGuild(old(db.guilds), ctx.guildId)
      ensures var t := TrackChannel(old(db.channels), ctx.channelId, ctx.guildId);
        db.channels == t[ctx.channelId := t[ctx.channelId].(randomReplyChance := chance)]
        && replies == [RandomReplyChanceChanged(t[ctx.channelId].randomReplyChance, chance)]
    {
      var channel := db.FindOrStartTrackingChannel(ctx.channelId, ctx.guildId);
      db.channels := db.channels[ctx.channelId := channel.(randomReplyChance := chance)];
      replies := [RandomReplyChanceChanged(channel.randomReplyChance, chance)];
    }

    /**
     * `set-server-messages-format`: the server's default format is replaced
     * only by a format the check accepts; the reply then shows the format and
     * how a sample message renders in it. The server is tracked either way.
     */
    method SetDefaultMessagesFormat(ctx: Context, newFormat: string) returns (replies: seq<Reply>)
      requires db.Valid()
      modifies db`guilds
      ensures db.Valid()
      ensures MessagesFormat.CheckFormat(newFormat) == MessagesFormat.Accepted ==>
        db.guilds == old(GuildWith(ctx, (g: Guild) => g.(messagesFormat := Some(newFormat))))
        && replies == [FormatAccepted(newFormat, MessagesFormat.Preview(newFormat))]
      ensures MessagesFormat.CheckFormat(newFormat) == MessagesFormat.MissingMsgPlaceholder ==>
        db.guilds == TrackGuild(old(db.guilds), ctx.guildId) && replies == [MissingMsgPlaceholder]
      ensures MessagesFormat.CheckFormat(newFormat) == MessagesFormat.WrongRefMsgFormat ==>
        db.guilds == TrackGuild(old(db.guilds), ctx.guildId) && replies == [WrongRefMsgFormat]
    {
      var guild := db.FindOrStartTrackingGuild(ctx.guildId);
      match MessagesFormat.CheckFormat(newFormat)
      case MissingMsgPlaceholder =>
        return [MissingMsgPlaceholder];
      case WrongRefMsgFormat =>
        return [WrongRefMsgFormat];
      case Accepted =>
        db.guilds := db.guilds[ctx.guildId := guild.(messagesFormat := Some(newFormat))];
        return [FormatAccepted(newFormat, MessagesFormat.Preview(newFormat))];
    }

    /** `drop-server-messages-format`: the server has no default format any more. */
    method DropGuildMessagesFormat(ctx: Context) returns (replies: seq<Reply>)
      requires db.Valid()
      modifies db`guilds
      ensures db.Valid()
      ensures db.guilds == old(GuildWith(ctx, (g: Guild) => g.(messagesFormat := None))) && replies == [Success]
    {
      var guild := db.FindOrStartTrackingGuild(ctx.guildId);
      db.guilds := db.guilds[ctx.guildId := guild.(messagesFormat := None)];
      replies := [Success];
    }

    /** `drop-server-jailbreak-prompt`: the server has no default prompt any more. */
    method DropGuildPrompt(ctx: Context) returns (replies: seq<Reply>)
      requires db.Valid()
      modifies db`guilds
      ensures db.Valid()
      ensures db.guilds == old(GuildWith(ctx, (g: Guild) => g.(jailbreakPrompt := None))) && replies == [Success]
    {
      var guild := db.FindOrStartTrackingGuild(ctx.guildId);
      db.guilds := db.guilds[ctx.guildId := guild.(jailbreakPrompt := None)];
      replies := [Success];
    }

    /** `set-server-cai-token`: the server's CharacterAI token and subscription. */
    method SetGuildCaiToken(ctx: Context, token: string, hasCaiPlusSubscription: bool) returns (replies: seq<Reply>)
      requires db.Valid()
      modifies db`guilds
      ensures db.Valid()
      ensures db.guilds == old(GuildWith(ctx, (g: Guild) => g.(caiUserToken := Some(token), caiPlusMode := Some(hasCaiPlusSubscription))))
      ensures replies == [Success]
    {
      var guild := db.FindOrStartTrackingGuild(ctx.guildId);
      db.guilds := db.guilds[ctx.guildId := guild.(caiUserToken := Some(token), caiPlusMode := Some(hasCaiPlusSubscription))];
      replies := [Success];
    }

    /**
     * `set-server-aisekai-auth`: after a successful sign-in the server keeps the
     * tokens it yielded; after a failed one nothing changes, not even tracking.
     */
    method SetGuildAisekaiAuth(ctx: Context, auth: AuthResponse) returns (replies: seq<Reply>)
      requires db.Valid()
      modifies db`guilds
      ensures db.Valid()
      ensures auth.AuthOk? ==>
        db.guilds == old(GuildWith(ctx, (g: Guild) => g.(aisekaiAuthToken := Some(auth.expToken), aisekaiRefreshToken := Some(auth.refreshToken))))
        && replies == [Success]
      ensures auth.AuthFailed? ==> db.guilds == old(db.guilds) && replies == [SignInFailed(auth.message)]
    {
      if auth.AuthFailed? {
        return [SignInFailed(auth.message)];
      }
      var guild := db.FindOrStartTrackingGuild(ctx.guildId);
      db.guilds := db.guilds[ctx.guildId := guild.(aisekaiAuthToken := Some(auth.expToken), aisekaiRefreshToken := Some(auth.refreshToken))];
      replies := [Success];
    }

    /**
     * `set-server-openai-api`: the server's OpenAI token and model; the endpoint
     * is replaced only when one is given.
     */
    method SetGuildOpenAiToken(ctx: Context, token: string, gptModel: OpenAiModel, reverseProxyEndpoint: Option<string>)
      returns (replies: seq<Reply>)
      requires db.Valid()
      modifies db`guilds
      ensures db.Valid()
      ensures db.guilds == old(GuildWith(ctx, (g: Guild) => g.(
        openAiApiEndpoint := if reverseProxyEndpoint.Some? then reverseProxyEndpoint else g.openAiApiEndpoint,
        openAiApiToken := Some(token),
        openAiModel := Some(OpenAiModelName(gptModel)))))
      ensures replies == [Success]
    {
      var guild := db.FindOrStartTrackingGuild(ctx.guildId);
      if reverseProxyEndpoint.Some? {
        guild := guild.(openAiApiEndpoint := reverseProxyEndpoint);
      }
      guild := guild.(openAiApiToken := Some(token), openAiModel := Some(OpenAiModelName(gptModel)));
      db.guilds := db.guilds[ctx.guildId := guild];
      replies := [Success];
    }

    /** `set-server-koboldai-api`: the server's KoboldAI endpoint. */
    method SetGuildKoboldAiApi(ctx: Context, apiEndpoint: string) returns (replies: seq<Reply>)
      requires db.Valid()
      modifies db`guilds
      ensures db.Valid()
      ensures db.guilds == old(GuildWith(ctx, (g: Guild) => g.(koboldAiApiEndpoint := Some(apiEndpoint)))) && replies == [Success]
    {
      var guild := db.FindOrStartTrackingGuild(ctx.guildId);
      db.guilds := db.guilds[ctx.guildId := guild.(koboldAiApiEndpoint := Some(apiEndpoint))];
      replies := [Success];
    }

    /** `set-server-horde-koboldai-api`: the server's Horde token and model. */
    method SetGuildHordeKoboldAiApi(ctx: Context, token: string, model: string) returns (replies: seq<Reply>)
      requires db.Valid()
      modifies db`guilds
      ensures db.Valid()
      ensures db.guilds == old(GuildWith(ctx, (g: Guild) => g.(hordeApiToken := Some(token), hordeModel := Some(model)))) && replies == [Success]
    {
      var guild := db.FindOrStartTrackingGuild(ctx.guildId);
      db.guilds := db.guilds[ctx.guildId := guild.(hordeApiToken := Some(token), hordeModel := Some(model))];
      replies := [Success];
    }

    /**
     * `reset-character`: the chat is reset by the backend of the character and,
     * when that worked, the character posts its greeting through its webhook,
     * with the user's mention and the names put in.
     */
    method ResetCharacter(ctx: Context, target: Option<ulong>, caiAvailable: bool, newChat: CaiRequest -> Option<string>,
                          trace: seq<Reset.Attempt>, clientExists: bool, sendFails: bool) returns (replies: seq<Reply>)
      requires db.Valid() && (target.Some? ==> target.value in db.characterWebhooks)
      requires target.Some? && db.characterWebhooks[target.value].integrationType == Aisekai ==> Reset.Decisive(trace)
      modifies db`characterWebhooks, db`characters, discord`posted
      ensures db.Valid()
      ensures target.None? ==>
        replies == [CharacterNotFound] && db.characterWebhooks == old(db.characterWebhooks)
        && db.characters == old(db.characters) && discord.posted == old(discord.posted)
      ensures target.Some? ==>
        var id := target.value;
        var cw := old(db.characterWebhooks[id]);
        var r := ResetChat(cw, old(db.GuildOf(id)), old(db.characters[cw.characterId]), caiAvailable, newChat, trace);
        && db.characterWebhooks == old(db.characterWebhooks)[id := r.webhook]
        && db.characters == old(db.characters)[cw.characterId := r.character]
        && discord.posted == old(discord.posted)
             + (if r.ok && clientExists && !sendFails
                then [Post(id, Greeting.CharacterMessage(ctx.user.mention, r.character.greeting, r.character.name, ctx.user.bestName))]
                else [])
        && replies == r.replies + (if !r.ok then [] else if !clientExists then [WebhookNotFound] else if sendFails then [FailedToSendGreeting] else [])
    {
      if target.None? {
        return [CharacterNotFound];
      }
      var id := target.value;
      var ok;
      ok, replies := ResetHistory(id, caiAvailable, newChat, trace);
      if ok {
        var more := SendGreeting(ctx, id, clientExists, sendFails);
        replies := replies + more;
      }
    }

    /** The reset of the chat of the tracked webhook `id` by its backend, as `ResetChat` describes it. */
    method ResetHistory(id: ulong, caiAvailable: bool, newChat: CaiRequest -> Option<string>, trace: seq<Reset.Attempt>)
      returns (ok: bool, replies: seq<Reply>)
      requires db.Valid() && id in db.characterWebhooks
      requires db.characterWebhooks[id].integrationType == Aisekai ==> Reset.Decisive(trace)
      modifies db`characterWebhooks, db`characters
      ensures db.Valid()
      ensures var cw := old(db.characterWebhooks[id]);
        var r := ResetChat(cw, old(db.GuildOf(id)), old(db.characters[cw.characterId]), caiAvailable, newChat, trace);
        && ok == r.ok && replies == r.replies
        && db.characterWebhooks == old(db.characterWebhooks)[id := r.webhook]
        && db.characters == old(db.characters)[cw.characterId := r.character]
    {
      var cw := db.characterWebhooks[id];
      var c := db.characters[cw.characterId];
      ghost var r := ResetChat(cw, db.GuildOf(id), c, caiAvailable, newChat, trace);
      match cw.integrationType {
        case CharacterAI =>
          ok, replies := ResetCaiCharacter(id, caiAvailable, newChat);
          assert old(db.characters)[cw.characterId := c] == old(db.characters);
          assert !ok ==> old(db.characterWebhooks)[id := cw] == old(db.characterWebhooks);
        case Aisekai =>
          ok, replies := ResetAisekaiCharacter(id, db.GuildOf(id).aisekaiAuthToken, trace);
          assert old(db.characterWebhooks)[id := cw] == old(db.characterWebhooks);
          assert !ok ==> old(db.characters)[cw.characterId := c] == old(db.characters);
        case Empty =>
          ok, replies := false, [NoApiBackend];
          assert old(db.characterWebhooks)[id := cw] == old(db.characterWebhooks);
          assert old(db.characters)[cw.characterId := c] == old(db.characters);
        case _ =>
          var reset := cw.(storedHistoryMessages := GreetingHistory(c.greeting));
          AddWebhookConsistent(db.guilds, db.channels, db.characters, db.characterWebhooks, reset);
          db.characterWebhooks := db.characterWebhooks[id := reset];
          ok, replies := true, [];
          assert old(db.characters)[cw.characterId := c] == old(db.characters);
      }
    }

    /**
     * The character of the tracked webhook `id` posts its greeting, when its
     * webhook client exists and the post does not fail.
     */
    method SendGreeting(ctx: Context, id: ulong, clientExists: bool, sendFails: bool) returns (replies: seq<Reply>)
      requires db.Valid() && id in db.characterWebhooks
      modifies discord`posted
      ensures var c := db.characters[db.characterWebhooks[id].characterId];
        discord.posted == old(discord.posted)
          + (if clientExists && !sendFails then [Post(id, Greeting.CharacterMessage(ctx.user.mention, c.greeting, c.name, ctx.user.bestName))] else [])
      ensures replies == if !clientExists then [WebhookNotFound] else if sendFails then [FailedToSendGreeting] else []
    {
      if !clientExists {
        return [WebhookNotFound];
      }
      if sendFails {
        return [FailedToSendGreeting];
      }
      var c := db.characters[db.characterWebhooks[id].characterId];
      discord.SendMessage(id, Greeting.CharacterMessage(ctx.user.mention, c.greeting, c.name, ctx.user.bestName));
      replies := [];
    }

    /**
     * A CharacterAI reset: the webhook's active chat becomes the new chat the
     * service creates for the request, and stays when the service is down or
     * creates none.
     */
    method ResetCaiCharacter(id: ulong, caiAvailable: bool, newChat: CaiRequest -> Option<string>) returns (ok: bool, replies: seq<Reply>)
      requires db.Valid() && id in db.characterWebhooks
      modifies db`characterWebhooks
      ensures db.Valid()
      ensures var created := if caiAvailable then newChat(old(CaiRequestOf(db.characterWebhooks[id], db.GuildOf(id)))) else None;
        ok == created.Some?
        && db.characterWebhooks == (if ok then old(db.characterWebhooks)[id := old(db.characterWebhooks[id]).(activeHistoryId := created)]
                                    else old(db.characterWebhooks))
        && replies == (if ok then [Success] else if caiAvailable then [FailedToCreateChat] else [CaiUnavailable])
    {
      if !caiAvailable {
        return false, [CaiUnavailable];
      }
      var created := newChat(CaiRequestOf(db.characterWebhooks[id], db.GuildOf(id)));
      if created.None? {
        return false, [FailedToCreateChat];
      }
      db.characterWebhooks := db.characterWebhooks[id := db.characterWebhooks[id].(activeHistoryId := created)];
      return true, [Success];
    }

    /**
     * An Aisekai reset with `authToken`: on success the character's greeting
     * becomes the one the answer carries; a 401 refreshes the token and tries
     * again with the new one, without bound; a failed refresh or any other
     * error ends it with the greeting unchanged.
     */
    method ResetAisekaiCharacter(id: ulong, authToken: Option<string>, trace: seq<Reset.Attempt>) returns (ok: bool, replies: seq<Reply>)
      requires db.Valid() && id in db.characterWebhooks && Reset.Decisive(trace)
      modifies db`characters
      decreases |trace|
      ensures db.Valid()
      ensures var cw := db.characterWebhooks[id];
        var run := Reset.RunAisekai(authToken.GetOr(""), cw.activeHistoryId.GetOr(""), trace);
        ok == run.greeting.Some?
        && db.characters == (if ok then old(db.characters)[cw.characterId := old(db.characters)[cw.characterId].(greeting := run.greeting.value)]
                             else old(db.characters))
        && replies == [AisekaiReply(trace)]
    {
      var cw := db.characterWebhooks[id];
      var a := trace[0];
      if a.response.ResetOk? {
        var c := db.characters[cw.characterId];
        db.characters := db.characters[cw.characterId := c.(greeting := a.response.greeting)];
        return true, [Success];
      } else if a.response.code == Reset.UNAUTHORIZED {
        if a.refreshed.None? {
          return false, [FailedToAuthorize];
        }
        assert Reset.Decisive(trace[1..]) by {
          var i :| 0 <= i < |trace| && !Reset.Retries(trace[i]);
          assert trace[1..][i - 1] == trace[i];
        }
        assert Reset.FirstStop(trace) == Reset.FirstStop(trace[1..]) + 1;
        assert trace[Reset.FirstStop(trace)] == trace[1..][Reset.FirstStop(trace[1..])];
        ok, replies := ResetAisekaiCharacter(id, a.refreshed, trace[1..]);
      } else {
        return false, [FailedToResetChat(a.response.errorReason)];
      }
    }

    /** `say`: the character posts the text as it is through its webhook, when its webhook client exists. */
    method Say(target: Option<ulong>, text: string, clientExists: bool) returns (replies: seq<Reply>)
      requires target.Some? ==> target.value in db.characterWebhooks
      modifies discord`posted
      ensures target.None? ==> replies == [CharacterNotFound] && discord.posted == old(discord.posted)
      ensures target.Some? ==>
        && discord.posted == old(discord.posted) + (if clientExists then [Post(target.value, text)] else [])
        && replies == (if clientExists then [Success] else [SomethingWentWrong])
    {
      if target.None? {
        return [CharacterNotFound];
      }
      if !clientExists {
        return [SomethingWentWrong];
      }
      discord.SendMessage(target.value, text);
      replies := [Success];
    }

    /**
     * `block-user`: the user picked, or the id typed, joins the server's block
     * list from `now` for `hours` hours, unless the id does not parse or the
     * user is blocked already. The guild is tracked once a user or an id is given.
     */
    method ServerBlockUser(ctx: Context, user: Option<DiscordUser>, userId: Option<string>, hours: int, now: int)
      returns (replies: seq<Reply>)
      requires db.Valid()
      modifies db`guilds
      ensures db.Valid()
      ensures user.None? && userId.None? ==> replies == [WrongUserOrUserId] && db.guilds == old(db.guilds)
      ensures user.Some? || userId.Some? ==>
        var before := TrackGuild(old(db.guilds), ctx.guildId);
        var blocked := before[ctx.guildId].blockedUsers;
        var named := NamedUser(user, userId);
        && (named.None? ==> replies == [WrongUserId] && db.guilds == before)
        && (named.Some? && HasKey(blocked, BlockedUserId, named.value) ==>
              replies == [AlreadyBlocked] && db.guilds == before)
        && (named.Some? && !HasKey(blocked, BlockedUserId, named.value) ==>
              && replies == [Success]
              && db.guilds == before[ctx.guildId := before[ctx.guildId].(blockedUsers := blocked + [BlockedUser(named.value, now, hours)])])
        && (named.Some? ==> HasKey(db.guilds[ctx.guildId].blockedUsers, BlockedUserId, named.value))
    {
      if user.None? && userId.None? {
        return [WrongUserOrUserId];
      }
      var guild := db.FindOrStartTrackingGuild(ctx.guildId);
      var named := NamedUser(user, userId);
      if named.None? {
        return [WrongUserId];
      }
      var id := named.value;
      if HasKey(guild.blockedUsers, BlockedUserId, id) {
        return [AlreadyBlocked];
      }
      var entry := BlockedUser(id, now, hours);
      AddKeepsUnique(guild.blockedUsers, BlockedUserId, entry);
      db.guilds := db.guilds[ctx.guildId := guild.(blockedUsers := guild.blockedUsers + [entry])];
      replies := [Success];
    }

    /**
     * `unblock-user`: the entry of the user picked, or of the id typed, leaves
     * the server's block list. The id is parsed before the guild is tracked;
     * a user who is not blocked is reported.
     */
    method ServerUnblockUser(ctx: Context, user: Option<DiscordUser>, userId: Option<string>) returns (replies: seq<Reply>)
      requires db.Valid()
      modifies db`guilds
      ensures db.Valid()
      ensures user.None? && userId.None? ==> replies == [WrongUserOrUserId] && db.guilds == old(db.guilds)
      ensures (user.Some? || userId.Some?) && NamedUser(user, userId).None? ==>
        replies == [WrongUserId] && db.guilds == old(db.guilds)
      ensures (user.Some? || userId.Some?) && NamedUser(user, userId).Some? ==>
        var before := TrackGuild(old(db.guilds), ctx.guildId);
        var blocked := before[ctx.guildId].blockedUsers;
        var id := NamedUser(user, userId).value;
        && (!HasKey(blocked, BlockedUserId, id) ==> replies == [UserNotFound] && db.guilds == before)
        && (HasKey(blocked, BlockedUserId, id) ==>
              && replies == [Success]
              && db.guilds == before[ctx.guildId := before[ctx.guildId].(blockedUsers := RemoveKey(blocked, BlockedUserId, id))]
              && |db.guilds[ctx.guildId].blockedUsers| == |blocked| - 1)
        && !HasKey(db.guilds[ctx.guildId].blockedUsers, BlockedUserId, id)
    {
      if user.None? && userId.None? {
        return [WrongUserOrUserId];
      }
      var named := NamedUser(user, userId);
      if named.None? {
        return [WrongUserId];
      }
      var id := named.value;
      var guild := db.FindOrStartTrackingGuild(ctx.guildId);
      RemoveKeyExact(guild.blockedUsers, BlockedUserId, id);
      if FindByKey(guild.blockedUsers, BlockedUserId, id).None? {
        return [UserNotFound];
      }
      db.guilds := db.guilds[ctx.guildId := guild.(blockedUsers := RemoveKey(guild.blockedUsers, BlockedUserId, id))];
      replies := [Success];
    }

    /**
     * The user a hunt or unhunt command names, with the name its reply shows:
     * the user picked (shown by mention); else the id typed, once trimmed
     * (shown as its number); else the character webhook the text designates in
     * the channel (shown by its character's name). None when nothing is found.
     */
    function Quarry(user: Option<DiscordUser>, text: Option<string>, byPrefix: Option<ulong>): (q: Option<(ulong, string)>)
      reads db
      requires db.Valid() && (byPrefix.Some? ==> byPrefix.value in db.characterWebhooks)
      requires user.Some? || text.Some?
      ensures user.Some? ==> q == Some((user.value.id, user.value.mention))
      ensures user.None? && TryParse(Trim(text.value)).Some? ==>
        var id := TryParse(Trim(text.value)).value;
        q == Some((id, ToDecimal(id))) && TryParse(q.value.1) == Some(id)
      ensures user.None? && TryParse(Trim(text.value)).None? ==>
        (q.Some? <==> byPrefix.Some?)
        && (q.Some? ==> q.value.0 == byPrefix.value && q.value.1 == db.characters[db.characterWebhooks[byPrefix.value].characterId].name)
    {
      if user.Some? then Some((user.value.id, user.value.mention))
      else
        var parsed := TryParse(Trim(text.value));
        if parsed.Some? then
          TryParseToDecimal(parsed.value);
          Some((parsed.value, ToDecimal(parsed.value)))
        else if byPrefix.Some? then
          Some((byPrefix.value, db.characters[db.characterWebhooks[byPrefix.value].characterId].name))
        else None
    }

    /**
     * `hunt-user`: the user the command names joins the hunted users of the
     * character `target` with the chance given, unless the character or the
     * user is not found or the user is hunted already.
     */
    method HuntUser(target: Option<ulong>, user: Option<DiscordUser>, text: Option<string>,
                    byPrefix: Option<ulong>, chance: real) returns (replies: seq<Reply>)
      requires db.Valid() && (target.Some? ==> target.value in db.characterWebhooks)
      requires byPrefix.Some? ==> byPrefix.value in db.characterWebhooks
      modifies db`characterWebhooks
      ensures db.Valid()
      ensures user.None? && IsNullOrWhiteSpace(text) ==>
        replies == [SpecifyUser] && db.characterWebhooks == old(db.characterWebhooks)
      ensures !(user.None? && IsNullOrWhiteSpace(text)) && target.None? ==>
        replies == [CharacterNotFound] && db.characterWebhooks == old(db.characterWebhooks)
      ensures !(user.None? && IsNullOrWhiteSpace(text)) && target.Some? ==>
        var id := target.value;
        var cw := old(db.characterWebhooks[id]);
        var q := old(Quarry(user, text, byPrefix));
        && (q.None? ==> replies == [HuntTargetNotFound] && db.characterWebhooks == old(db.characterWebhooks))
        && (q.Some? && HasKey(cw.huntedUsers, HuntedUserId, q.value.0) ==>
              replies == [AlreadyHunted] && db.characterWebhooks == old(db.characterWebhooks))
        && (q.Some? && !HasKey(cw.huntedUsers, HuntedUserId, q.value.0) ==>
              && replies == [Hunting(db.characters[cw.characterId].name, q.value.1)]
              && db.characterWebhooks == old(db.characterWebhooks)[id := cw.(huntedUsers := cw.huntedUsers + [HuntedUser(q.value.0, chance)])])
        && (q.Some? ==> HasKey(db.characterWebhooks[id].huntedUsers, HuntedUserId, q.value.0))
    {
      if user.None? && IsNullOrWhiteSpace(text) {
        return [SpecifyUser];
      }
      if target.None? {
        return [CharacterNotFound];
      }
      var id := target.value;
      var cw := db.characterWebhooks[id];
      var q := Quarry(user, text, byPrefix);
      if q.None? {
        return [HuntTargetNotFound];
      }
      var (userId, username) := q.value;
      if HasKey(cw.huntedUsers, HuntedUserId, userId) {
        return [AlreadyHunted];
      }
      var entry := HuntedUser(userId, chance);
      AddKeepsUnique(cw.huntedUsers, HuntedUserId, entry);
      SetHuntedUsers(id, cw.huntedUsers + [entry]);
      replies := [Hunting(db.characters[cw.characterId].name, username)];
    }

    /**
     * `unhunt-user`: the user the command names leaves the hunted users of the
     * character `target`; a user who is not hunted is reported.
     */
    method UnhuntUser(target: Option<ulong>, user: Option<DiscordUser>, text: Option<string>,
                      byPrefix: Option<ulong>) returns (replies: seq<Reply>)
      requires db.Valid() && (target.Some? ==> target.value in db.characterWebhooks)
      requires byPrefix.Some? ==> byPrefix.value in db.characterWebhooks
      modifies db`characterWebhooks
      ensures db.Valid()
      ensures user.None? && IsNullOrWhiteSpace(text) ==>
        replies == [SpecifyUser] && db.characterWebhooks == old(db.characterWebhooks)
      ensures !(user.None? && IsNullOrWhiteSpace(text)) && target.None? ==>
        replies == [CharacterNotFound] && db.characterWebhooks == old(db.characterWebhooks)
      ensures !(user.None? && IsNullOrWhiteSpace(text)) && target.Some? ==>
        var id := target.value;
        var cw := old(db.characterWebhooks[id]);
        var q := old(Quarry(user, text, byPrefix));
        && (q.None? ==> replies == [HuntTargetNotFound] && db.characterWebhooks == old(db.characterWebhooks))
        && (q.Some? && !HasKey(cw.huntedUsers, HuntedUserId, q.value.0) ==>
              replies == [NotHunted] && db.characterWebhooks == old(db.characterWebhooks))
        && (q.Some? && HasKey(cw.huntedUsers, HuntedUserId, q.value.0) ==>
              && replies == [NotHuntingAnymore(db.characters[cw.characterId].name, q.value.1)]
              && db.characterWebhooks == old(db.characterWebhooks)[id := cw.(huntedUsers := RemoveKey(cw.huntedUsers, HuntedUserId, q.value.0))]
              && |db.characterWebhooks[id].huntedUsers| == |cw.huntedUsers| - 1)
        && (q.Some? ==> !HasKey(db.characterWebhooks[id].huntedUsers, HuntedUserId, q.value.0))
    {
      if user.None? && IsNullOrWhiteSpace(text) {
        return [SpecifyUser];
      }
      if target.None? {
        return [CharacterNotFound];
      }
      var id := target.value;
      var cw := db.characterWebhooks[id];
      var q := Quarry(user, text, byPrefix);
      if q.None? {
        return [HuntTargetNotFound];
      }
      var (userId, username) := q.value;
      RemoveKeyExact(cw.huntedUsers, HuntedUserId, userId);
      if FindByKey(cw.huntedUsers, HuntedUserId, userId).None? {
        return [NotHunted];
      }
      SetHuntedUsers(id, RemoveKey(cw.huntedUsers, HuntedUserId, userId));
      replies := [NotHuntingAnymore(db.characters[cw.characterId].name, username)];
    }

    /** The hunted users of the character webhook `id` become `hunted`, a list with one entry per user. */
    method SetHuntedUsers(id: ulong, hunted: seq<HuntedUser>)
      requires db.Valid() && id in db.characterWebhooks && UniqueKeys(hunted, HuntedUserId)
      modifies db`characterWebhooks
      ensures db.Valid()
      ensures db.characterWebhooks == old(db.characterWebhooks)[id := old(db.characterWebhooks[id]).(huntedUsers := hunted)]
    {
      db.characterWebhooks := db.characterWebhooks[id := db.characterWebhooks[id].(huntedUsers := hunted)];
    }

    /**
     * `copy-character`: the character `source` is put into the channel of the
     * command through a new Discord webhook (`created`: its id and token, None
     * when Discord refuses it), named after the character without the reserved
     * word, and greets the user. The copy takes the source's settings with a
     * fresh chat. When the greeting cannot be posted, the new Discord webhook is
     * deleted again while the new record stays.
     */
    method CopyCharacter(ctx: Context, source: Option<ulong>, created: Option<(ulong, string)>, now: int, sendFails: bool)
      returns (replies: seq<Reply>)
      requires db.Valid() && (source.Some? ==> source.value in db.characterWebhooks)
      requires created.Some? ==> created.value.0 !in db.characterWebhooks && created.value.0 !in discord.webhooks
      modifies db`guilds, db`channels, db`characterWebhooks, discord`webhooks, discord`posted
      ensures db.Valid()
      ensures source.None? || !ctx.isIntegrationChannel || created.None? ==>
        && replies == (if source.None? then [CharacterNotFound] else if !ctx.isIntegrationChannel then [FailedToCopy] else [FailedToCreateWebhook])
        && unchanged(db) && unchanged(discord)
      ensures source.Some? && ctx.isIntegrationChannel && created.Some? ==>
        var (id, token) := created.value;
        var src := old(db.characterWebhooks[source.value]);
        var c := old(db.characters[src.characterId]);
        && replies == [Copied(c.name)]
        && db.guilds == TrackGuild(old(db.guilds), ctx.guildId)
        && db.channels == TrackChannel(old(db.channels), ctx.channelId, ctx.guildId)
        && db.characterWebhooks == old(db.characterWebhooks)[id := CopyOf(src, id, token, ctx.channelId, now, c.greeting)]
        && discord.webhooks == (if sendFails then old(discord.webhooks)
                                else old(discord.webhooks)[id := RemoteWebhook(ctx.channelId, ctx.guildId, Homoglyph.WebhookName(c.name), token)])
        && discord.posted == old(discord.posted)
             + (if sendFails then [] else [Post(id, Greeting.CharacterMessage(ctx.user.mention, c.greeting, c.name, ctx.user.bestName))])
    {
      if source.None? {
        return [CharacterNotFound];
      }
      if !ctx.isIntegrationChannel {
        return [FailedToCopy];
      }
      var src := db.characterWebhooks[source.value];
      var c := db.characters[src.characterId];
      var name := Homoglyph.WebhookName(c.name);
      if created.None? {
        return [FailedToCreateWebhook];
      }
      var (id, token) := created.value;
      discord.CreateWebhook(id, RemoteWebhook(ctx.channelId, ctx.guildId, name, token));
      AddCopy(ctx, src, id, token, now, c.greeting);
      replies := [Copied(c.name)];
      if sendFails {
        AddThenDelete(old(discord.webhooks), id, RemoteWebhook(ctx.channelId, ctx.guildId, name, token));
        discord.DeleteWebhook(id);
      } else {
        discord.SendMessage(id, Greeting.CharacterMessage(ctx.user.mention, c.greeting, c.name, ctx.user.bestName));
      }
    }

    /** The record of the copy of `src` under the new webhook `id`, in the tracked channel of the command. */
    method AddCopy(ctx: Context, src: CharacterWebhook, id: ulong, token: string, now: int, greeting: string)
      requires db.Valid() && src.characterId in db.characters && id !in db.characterWebhooks
      modifies db`guilds, db`channels, db`characterWebhooks
      ensures db.Valid() && db.characters == old(db.characters)
      ensures db.guilds == TrackGuild(old(db.guilds), ctx.guildId)
      ensures db.channels == TrackChannel(old(db.channels), ctx.channelId, ctx.guildId)
      ensures db.characterWebhooks == old(db.characterWebhooks)[id := CopyOf(src, id, token, ctx.channelId, now, greeting)]
    {
      var channel := db.FindOrStartTrackingChannel(ctx.channelId, ctx.guildId);
      var copy := CopyOf(src, id, token, channel.id, now, greeting);
      AddWebhookConsistent(db.guilds, db.channels, db.characters, db.characterWebhooks, copy);
      db.characterWebhooks := db.characterWebhooks[id := copy];
    }
  }
}
