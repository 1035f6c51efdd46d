/**
 * The bot's store: guilds (Discord servers), the channels of those guilds, the
 * characters, and the character webhooks that put a character into a channel.
 * A guild holds its block list; a character webhook holds its hunted-user list
 * and, for the integrations that keep the chat history themselves, its stored
 * history. The store itself is the object the commands change; the rows are
 * values it holds.
 */
module Storage {
  import opened Wrappers
  import opened ULong
  import opened KeyedList

  /** The chat backend a character webhook talks to. */
  datatype IntegrationType = Empty | CharacterAI | OpenAI | KoboldAI | HordeKoboldAI | Aisekai

  /** A user the characters of a guild ignore, since `from` for `hours` hours (0: for ever). */
  datatype BlockedUser = BlockedUser(id: ulong, from: int, hours: int)

  /** A user a character answers with the given chance, in percent. */
  datatype HuntedUser = HuntedUser(userId: ulong, chance: real)

  /** One message of a chat history kept by the bot. */
  datatype StoredHistoryMessage = StoredHistoryMessage(content: string, role: string)

  datatype Character = Character(id: string, name: string, greeting: string, avatarUrl: string)

  /** A guild's defaults for its characters, its backend credentials and its block list. */
  datatype Guild = Guild(
    id: ulong,
    messagesFormat: Option<string>,
    jailbreakPrompt: Option<string>,
    caiUserToken: Option<string>,
    caiPlusMode: Option<bool>,
    aisekaiAuthToken: Option<string>,
    aisekaiRefreshToken: Option<string>,
    openAiApiEndpoint: Option<string>,
    openAiApiToken: Option<string>,
    openAiModel: Option<string>,
    koboldAiApiEndpoint: Option<string>,
    hordeApiToken: Option<string>,
    hordeModel: Option<string>,
    blockedUsers: seq<BlockedUser>)

  datatype Channel = Channel(id: ulong, guildId: ulong, randomReplyChance: real)

  /** A character put into a channel through a Discord webhook, with its own settings. */
  datatype CharacterWebhook = CharacterWebhook(
    id: ulong,
    webhookToken: string,
    channelId: ulong,
    characterId: string,
    integrationType: IntegrationType,
    callPrefix: string,
    personalMessagesFormat: Option<string>,
    personalJailbreakPrompt: Option<string>,
    personalApiToken: Option<string>,
    personalApiEndpoint: Option<string>,
    personalApiModel: Option<string>,
    generationTemperature: Option<real>,
    generationFreqPenaltyOrRepetitionSlope: Option<real>,
    generationPresenceOrRepetitionPenalty: Option<real>,
    generationMaxTokens: Option<int>,
    crutchEnabled: bool,
    stopBtnEnabled: bool,
    referencesEnabled: bool,
    swipesEnabled: bool,
    fromChub: bool,
    activeHistoryId: Option<string>,
    messagesSent: int,
    replyChance: real,
    responseDelay: int,
    lastCallTime: int,
    huntedUsers: seq<HuntedUser>,
    storedHistoryMessages: seq<StoredHistoryMessage>)

  function BlockedUserId(b: BlockedUser): ulong { b.id }
  function HuntedUserId(h: HuntedUser): ulong { h.userId }

  /** The guild record the store starts tracking for a guild it has not seen. */
  function NewGuild(id: ulong): (g: Guild)
    ensures g.id == id && g.blockedUsers == []
  {
    Guild(id, None, None, None, None, None, None, None, None, None, None, None, None, [])
  }

  /** The channel record the store starts tracking for a channel it has not seen. */
  function NewChannel(id: ulong, guildId: ulong): (c: Channel)
    ensures c.id == id && c.guildId == guildId
  {
    Channel(id, guildId, 0.0)
  }

  /**
   * The guilds once `id` is tracked: a guild seen before keeps its record, an
   * unseen one gets a fresh record, and every other guild stays as it was.
   */
  function TrackGuild(guilds: map<ulong, Guild>, id: ulong): (r: map<ulong, Guild>)
    ensures id in r && r[id] == (if id in guilds then guilds[id] else NewGuild(id))
    ensures r.Keys == guilds.Keys + {id}
    ensures forall k | k in guilds :: r[k] == guilds[k]
  {
    if id in guilds then guilds else guilds[id := NewGuild(id)]
  }

  /** The channels once `id` is tracked, a fresh record going to the guild `guildId`. */
  function TrackChannel(channels: map<ulong, Channel>, id: ulong, guildId: ulong): (r: map<ulong, Channel>)
    ensures id in r && r[id] == (if id in channels then channels[id] else NewChannel(id, guildId))
    ensures r.Keys == channels.Keys + {id}
    ensures forall k | k in channels :: r[k] == channels[k]
  {
    if id in channels then channels else channels[id := NewChannel(id, guildId)]
  }

  /** The backends whose chat history the bot keeps itself, as a list of stored messages. */
  predicate KeepsLocalHistory(t: IntegrationType)
  {
    t == OpenAI || t == KoboldAI || t == HordeKoboldAI
  }

  /** The chat history that starts with the character's greeting. */
  function GreetingHistory(greeting: string): (h: seq<StoredHistoryMessage>)
    ensures |h| == 1 && h[0].content == greeting && h[0].role == "assistant"
  {
    [StoredHistoryMessage(greeting, "assistant")]
  }

  /** The two webhooks have the same character, backend and personal settings. */
  predicate SameSettings(a: CharacterWebhook, b: CharacterWebhook)
  {
    a.characterId == b.characterId && a.integrationType == b.integrationType && a.callPrefix == b.callPrefix
    && a.personalMessagesFormat == b.personalMessagesFormat && a.personalJailbreakPrompt == b.personalJailbreakPrompt
    && a.personalApiToken == b.personalApiToken && a.personalApiEndpoint == b.personalApiEndpoint
    && a.personalApiModel == b.personalApiModel && a.generationTemperature == b.generationTemperature
    && a.generationFreqPenaltyOrRepetitionSlope == b.generationFreqPenaltyOrRepetitionSlope
    && a.generationPresenceOrRepetitionPenalty == b.generationPresenceOrRepetitionPenalty
    && a.generationMaxTokens == b.generationMaxTokens && a.crutchEnabled == b.crutchEnabled
    && a.stopBtnEnabled == b.stopBtnEnabled && a.referencesEnabled == b.referencesEnabled
    && a.swipesEnabled == b.swipesEnabled && a.fromChub == b.fromChub
  }

  /**
   * The record of a copy of `src` under the new webhook `id` in the channel
   * `channelId`: the same settings, a fresh chat (no active history, one
   * message sent, no random replies, one second of delay), nobody hunted, and
   * the greeting as its whole history unless the backend keeps the history
   * itself (CharacterAI, Aisekai).
   */
  function CopyOf(src: CharacterWebhook, id: ulong, token: string, channelId: ulong, now: int, greeting: string): (r: CharacterWebhook)
    ensures SameSettings(r, src)
    ensures r.id == id && r.webhookToken == token && r.channelId == channelId && r.lastCallTime == now
    ensures r.activeHistoryId == None && r.messagesSent == 1 && r.replyChance == 0.0 && r.responseDelay == 1
    ensures r.huntedUsers == []
    ensures src.integrationType != CharacterAI && src.integrationType != Aisekai ==> r.storedHistoryMessages == GreetingHistory(greeting)
    ensures src.integrationType == CharacterAI || src.integrationType == Aisekai ==> r.storedHistoryMessages == []
  {
    var seeded := src.integrationType != CharacterAI && src.integrationType != Aisekai;
    CharacterWebhook(
      id, token, channelId, src.characterId, src.integrationType, src.callPrefix,
      src.personalMessagesFormat, src.personalJailbreakPrompt, src.personalApiToken, src.personalApiEndpoint,
      src.personalApiModel, src.generationTemperature, src.generationFreqPenaltyOrRepetitionSlope,
      src.generationPresenceOrRepetitionPenalty, src.generationMaxTokens,
      src.crutchEnabled, src.stopBtnEnabled, src.referencesEnabled, src.swipesEnabled, src.fromChub,
      None, 1, 0.0, 1, now, [], if seeded then GreetingHistory(greeting) else [])
  }

  /**
   * Every row is stored under its own id, every reference resolves, and the
   * block and hunted-user lists hold at most one entry per user.
   */
  predicate Consistent(guilds: map<ulong, Guild>, channels: map<ulong, Channel>,
                       characters: map<string, Character>, characterWebhooks: map<ulong, CharacterWebhook>)
  {
    (forall id | id in guilds ::
       guilds[id].id == id && UniqueKeys(guilds[id].blockedUsers, BlockedUserId))
    && (forall id | id in channels ::
          channels[id].id == id && channels[id].guildId in guilds)
    && (forall id | id in characters :: characters[id].id == id)
    && (forall id | id in characterWebhooks ::
          var cw := characterWebhooks[id];
          cw.id == id && cw.channelId in channels && cw.characterId in characters
          && UniqueKeys(cw.huntedUsers, HuntedUserId))
  }

  /** Removing character webhooks keeps the store consistent: nothing refers to them. */
  lemma RemoveWebhooksConsistent(guilds: map<ulong, Guild>, channels: map<ulong, Channel>,
                                 characters: map<string, Character>, characterWebhooks: map<ulong, CharacterWebhook>, gone: set<ulong>)
    requires Consistent(guilds, channels, characters, characterWebhooks)
    ensures Consistent(guilds, channels, characters, characterWebhooks - gone)
  {
  }

  /** Adding a character webhook whose channel and character are tracked keeps the store consistent. */
  lemma AddWebhookConsistent(guilds: map<ulong, Guild>, channels: map<ulong, Channel>,
                             characters: map<string, Character>, characterWebhooks: map<ulong, CharacterWebhook>, cw: CharacterWebhook)
    requires Consistent(guilds, channels, characters, characterWebhooks)
    requires cw.channelId in channels && cw.characterId in characters && UniqueKeys(cw.huntedUsers, HuntedUserId)
    ensures Consistent(guilds, channels, characters, characterWebhooks[cw.id := cw])
  {
  }

  class StorageContext {
    var guilds: map<ulong, Guild>
    var channels: map<ulong, Channel>
    var characters: map<string, Character>
    var characterWebhooks: map<ulong, CharacterWebhook>

    /** The store's contents satisfy `Consistent`. */
    ghost predicate Valid()
      reads this
    {
      Consistent(guilds, channels, characters, characterWebhooks)
    }

    constructor ()
      ensures Valid()
      ensures guilds == map[] && channels == map[] && characters == map[] && characterWebhooks == map[]
    {
      guilds, channels, characters, characterWebhooks := map[], map[], map[], map[];
    }

    /** The guild a tracked character webhook belongs to, through its channel. */
    function GuildOf(webhookId: ulong): (g: Guild)
      reads this
      requires Valid() && webhookId in characterWebhooks
      ensures g.id in guilds && guilds[g.id] == g
      ensures g.id == channels[characterWebhooks[webhookId].channelId].guildId
    {
      guilds[channels[characterWebhooks[webhookId].channelId].guildId]
    }

    /** The guild's record, after adding a fresh one if the guild was not tracked yet. */
    method FindOrStartTrackingGuild(id: ulong) returns (g: Guild)
      requires Valid()
      modifies this`guilds
      ensures Valid()
      ensures guilds == TrackGuild(old(guilds), id)
      ensures g == guilds[id]
    {
      if id !in guilds {
        guilds := guilds[id := NewGuild(id)];
      }
      g := guilds[id];
    }

    /**
     * The channel's record, after adding a fresh one if the channel was not
     * tracked yet; its guild is tracked first.
     */
    method FindOrStartTrackingChannel(id: ulong, guildId: ulong) returns (c: Channel)
      requires Valid()
      modifies this`guilds, this`channels
      ensures Valid()
      ensures guilds == TrackGuild(old(guilds), guildId)
      ensures channels == TrackChannel(old(channels), id, guildId)
      ensures c == channels[id]
    {
      var _ := FindOrStartTrackingGuild(guildId);
      if id !in channels {
        channels := channels[id := NewChannel(id, guildId)];
      }
      c := channels[id];
    }
  }
}
