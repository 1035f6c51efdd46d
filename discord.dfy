/**
 * The part of Discord the manager commands change: the webhooks that exist in
 * the guilds' channels, and the messages posted through them.
 */
module DiscordApi {
  import opened ULong

  datatype RemoteWebhook = RemoteWebhook(channelId: ulong, guildId: ulong, name: string, token: string)

  /** A message posted through a webhook. */
  datatype Post = Post(webhookId: ulong, text: string)

  class Discord {
    var webhooks: map<ulong, RemoteWebhook>
    var posted: seq<Post>

    constructor ()
      ensures webhooks == map[] && posted == []
    {
      webhooks, posted := map[], [];
    }

    /** Deletes a webhook; the others stay. */
    method DeleteWebhook(id: ulong)
      modifies this`webhooks
      ensures webhooks == old(webhooks) - {id}
    {
      webhooks := webhooks - {id};
    }

    /** Creates a webhook under an id Discord has not used before. */
    method CreateWebhook(id: ulong, w: RemoteWebhook)
      requires id !in webhooks
      modifies this`webhooks
      ensures webhooks == old(webhooks)[id := w]
    {
      webhooks := webhooks[id := w];
    }

    /** Posts a message through a webhook. */
    method SendMessage(id: ulong, text: string)
      modifies this`posted
      ensures posted == old(posted) + [Post(id, text)]
    {
      posted := posted + [Post(id, text)];
    }
  }
}
