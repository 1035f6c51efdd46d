# Character Engine manager commands, in Dafny

This project models the manager slash commands of the Character Engine
Discord bot. The bot puts AI characters into Discord channels through
webhooks. A server manager uses these commands to:

- remove characters (`delete-character`, `clear-characters`);
- reset their chats (`reset-character`);
- copy characters into another channel (`copy-character-from-channel`);
- make a character speak (`say`);
- set the server's defaults and backend credentials (`set-server-*`, `drop-server-*`, `set-channel-random-reply-chance`);
- keep the server's block list (`block-user`, `unblock-user`);
- keep a character's hunted users (`hunt-user`, `stop-hunt-user`).

The model has these parts:

- **Store.** The bot's database is the class `Storage.StorageContext`. It holds maps of guilds, channels, characters and character webhooks. Each row is a datatype holding its child lists: a guild holds its block list; a character webhook holds its hunted users and its stored history.
- **Store invariant.** `Storage.Consistent` says that every row sits under its own id, that every reference resolves, and that each block list and hunted-user list has at most one entry per user. Every command keeps it.
- **Discord.** The Discord side is the class `DiscordApi.Discord`. It holds the webhooks that exist and the messages posted through them.
- **Commands.** Each command is a method of the class `ManagerCommands.ManagerCommands`. It changes the store and Discord in place and returns the replies it sends, in order.
- **Outside answers.** Everything a command learns from outside comes in as a parameter:
  - the character webhook that a name or prefix designates;
  - whether a Discord call fails;
  - the new chat CharacterAI creates;
  - the answers of Aisekai and of its token refresh;
  - the current time.
- **Pure rules.** The rules on strings and lists are functions with proved properties:
  - format checking and preview (`MessagesFormat`);
  - greeting substitution and truncation (`Greeting`);
  - the webhook-name rewrite (`Homoglyph`);
  - `ulong` parsing and printing (`ULong`);
  - the id-keyed lists (`KeyedList`);
  - the .NET string operations (`Text`).

The Aisekai reset retries after a 401 answer for as long as the token refresh yields a token. Nothing bounds the number of retries (`ResetAisekaiCharacterAsync` calls itself at line 578). The model follows the code: the run is driven by a finite trace of answers that must contain one that ends the run. `Reset.RetriesUnbounded` shows that any number of retries can happen. The model does not cap the run at one retry.

## Model

| member | source | states |
|---|---|---|
| Text.IndexOf | Handlers/SlashCommands/ManagerCommands.cs:206-215 | `IndexOf` is -1 exactly when the pattern does not occur; otherwise it is the first occurrence. This is the ordinal `Contains` the format checks use. |
| Text.ReplaceLeavesNo | Handlers/SlashCommands/ManagerCommands.cs:226-235 | After `Replace(s, p, r)` with a replacement that cannot build an occurrence of `q`, `q` does not occur, when `q` is `p` or `q` was absent. This is the basis of every "placeholder gone" property. |
| Text.ReplaceChar | Handlers/SlashCommands/ManagerCommands.cs:605 | `Replace(char, char)` keeps the length and swaps exactly the characters equal to the first one. |
| Text.ToLower | Handlers/SlashCommands/ManagerCommands.cs:605 | `ToLower` keeps the length and lower-cases character by character. |
| ULong.TrimStart | Handlers/SlashCommands/ManagerCommands.cs:696 | The trimmed text is a suffix whose first character is not white space; only white space was dropped. |
| ULong.TrimEnd | Handlers/SlashCommands/ManagerCommands.cs:696 | The trimmed text is a prefix whose last character is not white space; only white space was dropped. |
| ULong.ToDecimal | Handlers/SlashCommands/ManagerCommands.cs:699 | `ulong.ToString()` gives a non-empty string of digits without a leading zero. |
| ULong.ToDecimalValue | Handlers/SlashCommands/ManagerCommands.cs:699 | The digits of `ToDecimal(n)` denote `n`. |
| ULong.TryParseToDecimal | Handlers/SlashCommands/ManagerCommands.cs:696-700 | Parsing an id printed with `ToString()` gives the id back. |
| ULong.TryParseNeedsDigit | Handlers/SlashCommands/ManagerCommands.cs:456-462 | A text that parses as an id holds a digit, so an empty or blank id is refused. |
| KeyedList.IndexOfKey | Handlers/SlashCommands/ManagerCommands.cs:511 | The index is -1 exactly when no entry has the id; otherwise it is the first entry with the id. |
| KeyedList.FindByKey | Handlers/SlashCommands/ManagerCommands.cs:511 | `FirstOrDefault` finds an entry exactly when one has the id, and the entry found is in the list with that id. |
| KeyedList.RemoveKeyExact | Handlers/SlashCommands/ManagerCommands.cs:772-780 | On a list with one entry per id, removing id `k` keeps exactly the entries whose id is not `k`. No entry for `k` is left, and there is still one entry per id. The list is one shorter when `k` was present and unchanged otherwise. |
| KeyedList.RemoveAtMembers | Handlers/SlashCommands/ManagerCommands.cs:518 | Dropping the entry at `i` leaves exactly the entries with another id. |
| KeyedList.RemoveAtUnique | Handlers/SlashCommands/ManagerCommands.cs:518 | Dropping one entry keeps one entry per id. |
| KeyedList.AddKeepsUnique | Handlers/SlashCommands/ManagerCommands.cs:469-475 | Appending an entry whose id is not present keeps one entry per id, and the id is then present. |
| KeyedList.AddThenRemove | Handlers/SlashCommands/ManagerCommands.cs:469-518 | Removing an id right after adding it gives back the list from before. |
| Storage.NewGuild | Handlers/SlashCommands/ManagerCommands.cs:451 | A newly tracked guild has the given id and an empty block list. |
| Storage.NewChannel | Handlers/SlashCommands/ManagerCommands.cs:124 | A newly tracked channel has the given id and guild. |
| Storage.TrackGuild | Handlers/SlashCommands/ManagerCommands.cs:204 | Tracking a guild adds a fresh record only when the guild is unknown. Every known guild keeps its record. |
| Storage.TrackChannel | Handlers/SlashCommands/ManagerCommands.cs:124 | Tracking a channel adds a fresh record only when the channel is unknown. Every known channel keeps its record. |
| Storage.GreetingHistory | Handlers/SlashCommands/ManagerCommands.cs:165-167 | The history that starts over holds one message: the greeting, with the role "assistant". |
| Storage.CopyOf | Handlers/SlashCommands/ManagerCommands.cs:619-651 | The copy keeps every setting of the source. It has no active history, one message sent, reply chance 0, response delay 1, no hunted users, and the new id, token, channel and time. Its history is the greeting exactly when the backend is neither CharacterAI nor Aisekai, and empty otherwise. |
| Storage.RemoveWebhooksConsistent | Handlers/SlashCommands/ManagerCommands.cs:104 | Removing character webhooks keeps the store consistent. |
| Storage.StorageContext.GuildOf | Handlers/SlashCommands/ManagerCommands.cs:162 | The guild reached from a character webhook is a tracked guild, stored under its own id, and it is the guild named by the webhook's channel. |
| Storage.StorageContext.FindOrStartTrackingGuild | Handlers/SlashCommands/ManagerCommands.cs:204 | The guilds become `TrackGuild` of the old guilds, and the record returned is the guild's. |
| Storage.StorageContext.FindOrStartTrackingChannel | Handlers/SlashCommands/ManagerCommands.cs:124 | The guild is tracked, then the channel, and the record returned is the channel's. |
| DiscordApi.Discord.DeleteWebhook | Handlers/SlashCommands/ManagerCommands.cs:54 | Exactly the webhook deleted is gone. |
| DiscordApi.Discord.CreateWebhook | Handlers/SlashCommands/ManagerCommands.cs:610 | The new webhook is added under its fresh id, and the others stay. |
| DiscordApi.Discord.SendMessage | Handlers/SlashCommands/ManagerCommands.cs:190 | The message is appended to what was posted. |
| Reset.FirstSome | Handlers/SlashCommands/ManagerCommands.cs:538 | A chain of `??` gives the first value present, or the fallback when none is present. |
| Reset.FirstStop | Handlers/SlashCommands/ManagerCommands.cs:562-579 | The attempt that ends an Aisekai run is the first one that is not a 401 followed by a refreshed token. |
| Reset.RunAisekaiStopsAtFirstStop | Handlers/SlashCommands/ManagerCommands.cs:557-585 | The run makes one request per attempt up to and including the one that ends it. The first request uses the given token, and each later one uses the token refreshed after the one before. A greeting results exactly when the last answer is a success, and it is that answer's greeting. |
| Reset.Expiring | Handlers/SlashCommands/ManagerCommands.cs:569-578 | This builds an answer sequence of `n` 401s, each with a refreshed token, followed by a success. |
| Reset.RetriesUnbounded | Handlers/SlashCommands/ManagerCommands.cs:569-578 | For every `n`, a run can make `n + 1` requests and still succeed, so the retries are not bounded. |
| MessagesFormat.RefCount | Handlers/SlashCommands/ManagerCommands.cs:212-215 | The count is at most 3. It is 0 exactly when no ref placeholder is present and 3 exactly when all three are. |
| MessagesFormat.CheckFormat | Handlers/SlashCommands/ManagerCommands.cs:206-221 | A format is accepted if and only if it holds `{{msg}}` and holds all or none of the three ref placeholders. It is refused for a missing `{{msg}}` exactly when `{{msg}}` is absent, and for the ref group exactly when `{{msg}}` is present and the group is partial. |
| MessagesFormat.PreviewWithoutReference | Handlers/SlashCommands/ManagerCommands.cs:226 | The preview of an accepted format without ref placeholders has no `{{msg}}`, no `{{user}}` and no ref marker left. |
| MessagesFormat.PreviewWithReference | Handlers/SlashCommands/ManagerCommands.cs:228-235 | The preview of an accepted format with the ref group has no `{{ref_msg_user}}` and no escaped line break left. |
| MessagesFormat.PreviewUserSaysMsg | Handlers/SlashCommands/ManagerCommands.cs:206-226 | `{{user}}<m>{{msg}}` is accepted and previews as `Lemon<m>Hello!`, for any middle text that starts with a space and holds no brace. |
| Template.ReplaceSlot | Handlers/SlashCommands/ManagerCommands.cs:226-235 | On a template whose text holds no opening brace, replacing `{{n}}` by a text without an opening brace is substituting that placeholder token, and the template stays well formed. |
| Template.ContainsHole | Handlers/SlashCommands/ManagerCommands.cs:206-215 | `{{n}}` occurs in such a template exactly when it is one of its placeholder tokens. |
| MessagesFormat.CheckTemplate | Handlers/SlashCommands/ManagerCommands.cs:206-221 | A format written as a template is refused for `{{msg}}` exactly when that token is absent. It is accepted exactly when it has `{{msg}}` and all or none of the referenced-message group, and the group counts 3 exactly when all three tokens are present. |
| MessagesFormat.PreviewOfTemplate | Handlers/SlashCommands/ManagerCommands.cs:226-235 | The preview of any format written as a template is its sample template: `Hello!`, `Lemon` and, with the full group, `Hola`, `Met` and empty markers in place of the placeholders, with escaped line breaks made real when the group is present. |
| MessagesFormat.PreviewConversation | Handlers/SlashCommands/ManagerCommands.cs:226-235 | The format `{{ref_msg_begin}}{{ref_msg_user}}<a>{{ref_msg_text}}{{ref_msg_end}}<b>{{user}}<c>{{msg}}` previews as `Met<a>Hola<b>Lemon<c>Hello!` with escaped line breaks made real, for texts without an opening brace. |
| MessagesFormat.PreviewReferenceExample | Handlers/SlashCommands/ManagerCommands.cs:226-235 | `{{ref_msg_begin}}{{ref_msg_user}}: {{ref_msg_text}}{{ref_msg_end}}\n{{user}}: {{msg}}` previews as the two lines `Met: Hola` and `Lemon: Hello!`. |
| MessagesFormat.PreviewExample | Handlers/SlashCommands/ManagerCommands.cs:226 | `{{user}} says: {{msg}}` previews as `Lemon says: Hello!`. |
| Text.Utf16Length | Handlers/SlashCommands/ManagerCommands.cs:186-187 | `Length` counts UTF-16 code units: at least one and at most two per character. |
| Text.Utf16Prefix | Handlers/SlashCommands/ManagerCommands.cs:187 | The prefix cut at `n` UTF-16 units is the longest prefix of at most `n` units: the whole text, or one more character would pass `n`. |
| Greeting.TruncateMessage | Handlers/SlashCommands/ManagerCommands.cs:186-187 | The result is at most 2000 UTF-16 units. A message of up to 2000 units is unchanged. A longer one becomes a prefix of 1994 units, or 1993 when the next character is a surrogate pair, followed by `[...]`. |
| Greeting.AstralMessageCut | Handlers/SlashCommands/ManagerCommands.cs:186-187 | A long message made only of characters outside the Basic Multilingual Plane keeps its first 997 characters (1994 units) before `[...]`. |
| Greeting.TruncateIdempotent | Handlers/SlashCommands/ManagerCommands.cs:186 | Truncating twice is truncating once. |
| Greeting.CharacterMessage | Handlers/SlashCommands/ManagerCommands.cs:658-659 | The posted message is the mention, a space and the substituted greeting. It is passed whole within 2000 UTF-16 units, and beyond that cut to 1994 units (1993 before a surrogate pair) plus `[...]`. |
| Greeting.GreetingFilledIn | Handlers/SlashCommands/ManagerCommands.cs:185 | When neither name holds a brace, no `{{char}}` and no `{{user}}` remain in the substituted greeting. |
| Homoglyph.WebhookNameAsWritten | Handlers/SlashCommands/ManagerCommands.cs:605 | As written, a name whose lower case contains "discord" gets Cyrillic `о`/`с` in place of the lower-case Latin `o`/`c` only. Other names are kept. |
| Homoglyph.WebhookNameAsWrittenKeepsDiscord | Handlers/SlashCommands/ManagerCommands.cs:605 | As written, `DISCORD` is left unchanged and still contains "discord" once lower-cased. |
| Homoglyph.Lookalike | Handlers/SlashCommands/ManagerCommands.cs:605 | A look-alike is never a Latin o or c, and characters other than o and c stay. |
| Homoglyph.WebhookName | Handlers/SlashCommands/ManagerCommands.cs:605 | As corrected, the new name has the same length and never contains "discord" in any case. A name without the word is kept. |
| Homoglyph.NoReservedWithoutLatinC | Handlers/SlashCommands/ManagerCommands.cs:605 | A name without a Latin c of either case cannot contain "discord" in any case. |
| Homoglyph.NoReservedWithoutC | Handlers/SlashCommands/ManagerCommands.cs:605 | A text without a lower-case Latin c does not contain "discord". |
| Homoglyph.LowerCOnlyFromC | Handlers/SlashCommands/ManagerCommands.cs:605 | Only `c` and `C` lower-case to `c`. |
| ManagerCommands.OpenAiModelName | Handlers/SlashCommands/ManagerCommands.cs:337 | GPT-3.5 turbo maps to "gpt-3.5-turbo" and GPT-4 maps to "gpt-4", in both directions. |
| ManagerCommands.CaiTokenCascade | Handlers/SlashCommands/ManagerCommands.cs:538 | The webhook's own token wins over the server's, the server's wins over none, and none gives "". |
| ManagerCommands.CaiRequestOf | Handlers/SlashCommands/ManagerCommands.cs:537-541 | The new-chat request carries the character id and the cascaded token. It asks for plus mode exactly when the server's plus mode is set to true. |
| ManagerCommands.ResetChat | Handlers/SlashCommands/ManagerCommands.cs:156-176 | A reset that fails changes nothing and gives one reply, which is not a success. OpenAI, KoboldAI and Horde always succeed with the history set to the greeting alone, and they send no reply. Only a successful CharacterAI or Aisekai reset replies with a success. No backend fails with "no API backend". CharacterAI succeeds exactly when the service is up and returns a chat, which then becomes the active chat. Aisekai succeeds exactly when the answer ending the run is a success, and the character then takes its greeting. |
| ManagerCommands.CaiReset | Handlers/SlashCommands/ManagerCommands.cs:529-555 | The active chat is replaced only when the service is up and returns a new chat. Otherwise nothing changes and the reply names the cause. |
| ManagerCommands.AisekaiReset | Handlers/SlashCommands/ManagerCommands.cs:557-585 | The character's greeting becomes the one of the answer ending the run exactly when that answer is a success. The reply is the one for that answer. |
| ManagerCommands.ManagerCommands.DeleteCharacter | Handlers/SlashCommands/ManagerCommands.cs:32-65 | In a text channel, the record is removed whether or not the Discord delete fails, and a failure is reported before the success. Outside a text channel, or for an unknown character, nothing changes. |
| ManagerCommands.ManagerCommands.ChannelScopeWithinServer | Handlers/SlashCommands/ManagerCommands.cs:77-92 | The webhooks cleared for a channel of the server are among those cleared for the whole server. |
| ManagerCommands.ManagerCommands.ClearCharacters | Handlers/SlashCommands/ManagerCommands.cs:70-111 | Every tracked webhook in scope is removed from the store, and no tracked webhook of the scope remains. Only Discord webhooks that are tracked, listed and whose delete does not fail are deleted. Untracked Discord webhooks stay untouched. The reply is sent only when no delete failed. |
| ManagerCommands.ManagerCommands.RemoveAllTracked | Handlers/SlashCommands/ManagerCommands.cs:96-106 | The loop removes all tracked records and deletes exactly the listed ones that do not fail. It reports a failure if and only if one of them failed. |
| ManagerCommands.ManagerCommands.RemoveTracked | Handlers/SlashCommands/ManagerCommands.cs:98-105 | One webhook: the record is removed in any case, and the Discord webhook is deleted only when it is listed and its delete does not fail. |
| ManagerCommands.ManagerCommands.SetChannelRandomReplyChance | Handlers/SlashCommands/ManagerCommands.cs:120-130 | The tracked channel's chance becomes the new one, and the reply shows the old and the new chance. |
| ManagerCommands.ManagerCommands.SetDefaultMessagesFormat | Handlers/SlashCommands/ManagerCommands.cs:200-245 | The guild's format becomes the new one only if `CheckFormat` accepts it, and the reply then carries the preview. Otherwise the guild is only tracked and the reply names the rule broken. |
| ManagerCommands.ManagerCommands.DropGuildMessagesFormat | Handlers/SlashCommands/ManagerCommands.cs:249-259 | The tracked guild's format becomes null, and nothing else changes. |
| ManagerCommands.ManagerCommands.DropGuildPrompt | Handlers/SlashCommands/ManagerCommands.cs:274-284 | The tracked guild's jailbreak prompt becomes null, and nothing else changes. |
| ManagerCommands.ManagerCommands.SetGuildCaiToken | Handlers/SlashCommands/ManagerCommands.cs:288-299 | The tracked guild's CharacterAI token and plus mode are set, and nothing else changes. |
| ManagerCommands.ManagerCommands.SetGuildAisekaiAuth | Handlers/SlashCommands/ManagerCommands.cs:303-323 | After a successful sign-in, both tokens are stored. After a failed one, nothing changes, the guild is not even tracked, and the reply carries the message. |
| ManagerCommands.ManagerCommands.SetGuildOpenAiToken | Handlers/SlashCommands/ManagerCommands.cs:327-341 | The token and the model name are set. The endpoint is replaced only when one is given. |
| ManagerCommands.ManagerCommands.SetGuildKoboldAiApi | Handlers/SlashCommands/ManagerCommands.cs:345-356 | The tracked guild's KoboldAI endpoint is set, and nothing else changes. |
| ManagerCommands.ManagerCommands.SetGuildHordeKoboldAiApi | Handlers/SlashCommands/ManagerCommands.cs:360-372 | The tracked guild's Horde token and model are set, and nothing else changes. |
| ManagerCommands.ManagerCommands.ResetCharacter | Handlers/SlashCommands/ManagerCommands.cs:144-196 | The webhook and the character become what `ResetChat` gives. The greeting message is posted only after a successful reset, when the webhook client exists and the post does not fail. The replies follow that order, and a reset of OpenAI, KoboldAI or Horde adds no reply of its own. |
| ManagerCommands.ManagerCommands.ResetHistory | Handlers/SlashCommands/ManagerCommands.cs:156-174 | The dispatch by backend changes the store exactly as `ResetChat` says, and nothing else. OpenAI, KoboldAI and Horde succeed silently, with no reply. |
| ManagerCommands.ManagerCommands.SendGreeting | Handlers/SlashCommands/ManagerCommands.cs:178-195 | The greeting message is posted exactly when the client exists and the post does not fail. Otherwise the reply names the cause. |
| ManagerCommands.ManagerCommands.ResetCaiCharacter | Handlers/SlashCommands/ManagerCommands.cs:529-555 | The webhook's active chat becomes the new chat exactly when the service is up and creates one. |
| ManagerCommands.ManagerCommands.ResetAisekaiCharacter | Handlers/SlashCommands/ManagerCommands.cs:557-585 | The recursion with refreshed tokens sets the greeting exactly as `RunAisekai` says, and answers with the reply for the attempt ending the run. |
| ManagerCommands.ManagerCommands.Say | Handlers/SlashCommands/ManagerCommands.cs:416-437 | The text is posted unchanged exactly when the character is found and its client exists. |
| ManagerCommands.ManagerCommands.ServerBlockUser | Handlers/SlashCommands/ManagerCommands.cs:441-479 | A user given by mention or by a parsable id is appended with the time and the hours, unless already blocked. Afterwards the user is blocked either way. An unparsable id changes nothing but the tracking of the guild. |
| ManagerCommands.ManagerCommands.ServerUnblockUser | Handlers/SlashCommands/ManagerCommands.cs:483-522 | The id is parsed before the guild is tracked. A blocked user's entry is removed, and the list is then one shorter. A user who is not blocked is reported, and nothing else changes. Afterwards the user is not blocked either way. |
| ManagerCommands.ManagerCommands.Quarry | Handlers/SlashCommands/ManagerCommands.cs:691-706 | The user named is the one picked (shown by mention), else the trimmed id if it parses (shown as a number that parses back to it), else the character webhook found by prefix (shown by its character's name). |
| ManagerCommands.ManagerCommands.HuntUser | Handlers/SlashCommands/ManagerCommands.cs:673-727 | A found user not yet hunted is appended with the chance, and is hunted afterwards either way. Nothing changes when no user is given, when the character or the user is not found, or when the user is already hunted. |
| ManagerCommands.ManagerCommands.UnhuntUser | Handlers/SlashCommands/ManagerCommands.cs:729-785 | A hunted user's entry is removed, the list is then one shorter, and the user is not hunted afterwards either way. A user who is not hunted is reported, and nothing changes. |
| ManagerCommands.ManagerCommands.CopyCharacter | Handlers/SlashCommands/ManagerCommands.cs:587-671 | The copy is stored as `CopyOf` the source in the tracked channel. The Discord webhook is created under the corrected name, and the greeting message is posted. A failed post deletes the new Discord webhook but keeps the record. When the character is not found, the channel is wrong or creation fails, nothing changes. |
| ManagerCommands.ManagerCommands.AddCopy | Handlers/SlashCommands/ManagerCommands.cs:619-651 | The channel is tracked and the copy record is added under the new id. |

## Left out

- I/O and transport are not modelled:
  - deferring and following up interactions;
  - embeds, colours and the `silent` flag;
  - `ModifyOriginalResponseAsync`;
  - saving to the database (`TryToSaveDbChangesAsync`): the store is the in-memory context.
- A reply is a datatype value, not the text of the embed.
- Lookups are parameters:
  - `TryToFindCharacterWebhookInChannelAsync`, whose body is not part of this model, is replaced by the id of the webhook found, or none;
  - the webhook client registry is reduced to a flag saying whether a client exists.
- `FindOrStartTrackingGuildAsync` and `FindOrStartTrackingChannelAsync` are not part of this model. They are modelled as "return the known record, else add a fresh one with every setting unset".
- `set-server-jailbreak-prompt` (lines 263-270) only opens a modal, and the modal's handler is not part of this model.
- `get-horde-koboldai-workers` (lines 376-412) is left out. It is an HTTP query whose JSON answer is only formatted for display.
- ManagerCommands.ManagerCommands.ClearCharacters: the store is the in-memory context. In the program, a delete that throws escapes `Parallel.ForEachAsync`, and `TryToSaveDbChangesAsync` at line 108 is skipped, so none of the removals reaches the database. The model shows them removed from the context.
- `ClearCharacters` runs its deletes sequentially. `Parallel.ForEachAsync` runs them concurrently and may stop starting new deletes after one throws; the model runs all of them. A failing delete ends the command without a reply, as the exception does.
- ManagerCommands.ManagerCommands.CopyCharacter: only a failing greeting post is modelled as an exception in the `try` block. A failure while tracking the channel or saving is not. Reporting to the log channel is left out, and so is the avatar download.
- ManagerCommands.ManagerCommands.CopyCharacter: the Discord webhook is named with the corrected `Homoglyph.WebhookName`, not the rewrite as written at line 605 (`Homoglyph.WebhookNameAsWritten`). A name such as `DISCORD` therefore gets a valid name in the model where the program's request would be refused (see Findings).
- ManagerCommands.ManagerCommands.Say: a post that throws is not modelled.
- ManagerCommands.ManagerCommands.ResetAisekaiCharacter: the greeting set at line 565 is never saved on this path; neither this method nor `ResetCharacter` calls `TryToSaveDbChangesAsync` afterwards. The model shows the new greeting in the context, not in the database.
- ManagerCommands.ManagerCommands.ResetAisekaiCharacter: the refresh call also stores the refreshed token in the guild, inside the integrations service; that store is not modelled. The run needs a trace that ends (`Decisive`). A backend that answers 401 with a fresh token for ever, which would recurse without end, is not modelled.
- CharacterAI and Aisekai calls are parameters:
  - the new-chat result is a function of the request;
  - the Aisekai answers are a trace;
  - the sign-in answer is a value.
- Greeting.TruncateMessage: when unit 1994 is the high half of a surrogate pair, .NET's `[0..1994]` keeps that lone high surrogate; a Dafny character is a whole Unicode scalar value, so the model drops the whole pair and keeps 1993 units.
- Greeting.CharacterMessage: the same cut applies to the posted greeting, with a surrogate pair at unit 1994 dropped whole instead of halved.
- The template lemmas (`Template`, `MessagesFormat.CheckTemplate`, `MessagesFormat.PreviewOfTemplate`) cover formats whose plain text has no opening brace; a text such as `{{{msg}}` with overlapping braces is covered by `CheckFormat`, but its preview is not characterised.
- The chance and temperature values (`float`) are reals, with no rounding.
- Time (`DateTime.UtcNow`, `DateTime.Now`) is an integer parameter.
- `ToLower` uses the current culture. The model lower-cases only Latin A-Z and Cyrillic А-Я, and does not model culture-specific mappings such as the Turkish dotless i.
- The OpenAI model enum has no value besides the two the command offers, so the `null` branch of line 337 cannot be reached and is not modelled.

## Findings

| source | as written | input that shows it | evidently intended | confidence | as-written member | corrected member |
|---|---|---|---|---|---|---|
| Handlers/SlashCommands/ManagerCommands.cs:605 | The name is checked for "discord" after `ToLower()`, but only lower-case `o` and `c` are replaced | A character named `DISCORD`: the check matches, nothing is replaced, and the webhook name still contains the reserved word, so Discord refuses it | Replace `o`, `O`, `c`, `C` by Cyrillic look-alikes so that the name no longer contains "discord" in any case | not executed | Homoglyph.WebhookNameAsWrittenKeepsDiscord | Homoglyph.WebhookName |
