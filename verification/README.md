# Webhook entity model

A Dafny model of the webhook entity of a chat-platform client library
(`src/client/caching/structures/Webhook.ts`). A webhook is a cached object
mirroring a server-owned resource. Its identity (`id`, `type`,
`channelID`, `guildID`, `token`) is fixed when the object is built. Its
profile (`user`, `name`, `avatar`) is overwritten in place by `_patch`
from a payload. Patching in place, rather than replacing the object, is what
lets a cache keep one object per webhook.
Its `send`, `update`, `delete` and static `fetch` operations each pick a REST
route, an authentication mode and a body.

Layout:

- `wrappers.dfy` (module `Wrappers`): `Option` (JavaScript `undefined`/`null`) and `Result`.
- `requests.dfy` (module `Requests`): the request descriptor handed to the REST client.
  `Routes.webhook(id)` becomes `WebhookRoute(id)` and `Routes.webhookTokened(id, token)` becomes `TokenedRoute(id, token)`.
  `Truthy` is JavaScript truthiness of an optional string (`undefined` and `""` are falsy).
  `AddressedTo` is the addressing rule every request keeps.
- `webhook.dfy` (module `Webhooks`): the payload and state datatypes and the `Webhook` class.
  The constructor and `Patch` (`_patch`) assign the object's fields in place; `Patch` may modify only `user`, `name` and `avatar`.
  `Send`, `Update` and `Delete` are pure functions of a state snapshot; `FetchRequest` is a pure function of an id and an optional token.
  Each returns a request; only `Send` can return an error instead.
  The lemmas relate them.

Modelling choices:

- When the source passes no `auth` option, the REST client is taken to authenticate (`auth == true`).
  The source's comments say these calls need the MANAGE_WEBHOOKS permission.
- An `undefined` field of a body is the same as a missing key (`None`).
  The authenticated `update` carries `channelID` exactly as given, which may be `""` when no token is known.
  The tokened `update` carries no `channel_id`.
- The HTTP client is a parameter. The static `Fetch` takes the transport as a function from request to payload.
  The webhook it returns takes its `id` and `token` from that payload, not from its arguments.

## Model

| member | source | states |
|---|---|---|
| Webhooks.Webhook.constructor | src/client/caching/structures/Webhook.ts:25-33 | id, type, channelID, guildID and token come from the payload's id, type, channel_id, guild_id and token; user, name and avatar equal the payload's; the state is `Created(data)` |
| Webhooks.Webhook.Patch | src/client/caching/structures/Webhook.ts:35-39 | only user, name and avatar are assigned (frame `this`user, this`name, this`avatar`), each to the payload's value; the identity fields are unchanged |
| Webhooks.Webhook.Fetch | src/client/caching/structures/Webhook.ts:112-118 | issues exactly `FetchRequest(id, token)` and returns a fresh webhook built from the payload answered, so its id is the payload's id |
| Webhooks.Send | src/client/caching/structures/Webhook.ts:77-80 | fails with TokenUnknown, whose message is "The token on this webhook is unknown. You cannot send messages.", exactly when the token is undefined or empty; otherwise a POST on the tokened route of this webhook, unauthenticated, with the message data unchanged |
| Webhooks.Update | src/client/caching/structures/Webhook.ts:86-93 | a PATCH carrying name and avatar unchanged; authenticated on `WebhookRoute(id)` exactly when a non-empty channel is requested or no token is known, then carrying channelID as given; otherwise on the tokened route with no channel_id; a requested channel move always reaches the body |
| Webhooks.Delete | src/client/caching/structures/Webhook.ts:98-104 | never fails; a DELETE with no body, unauthenticated on the tokened route exactly when a token is known, else authenticated on `WebhookRoute(id)` |
| Webhooks.FetchRequest | src/client/caching/structures/Webhook.ts:113-115 | a GET with no body, unauthenticated on `TokenedRoute(id, token)` exactly when a non-empty token is given, else authenticated on `WebhookRoute(id)` |
| Webhooks.PatchIdempotent | src/client/caching/structures/Webhook.ts:35-39 | patching twice with the same payload equals patching once |
| Webhooks.PatchLastWins | src/client/caching/structures/Webhook.ts:35-39 | of two patches the later one alone decides the result |
| Webhooks.ReplayKeepsIdentity | src/client/caching/structures/Webhook.ts:35-39 | no sequence of patches changes the identity |
| Webhooks.ReplayLastWins | src/client/caching/structures/Webhook.ts:35-39 | after a non-empty sequence of patches the state is that of patching with the last payload alone |
| Webhooks.ReplayIdempotent | src/client/caching/structures/Webhook.ts:35-39 | replaying a sequence of payloads a second time changes nothing |
| Webhooks.ReplayKeepsRequests | src/client/caching/structures/Webhook.ts:77-104 | send, update and delete choose the same request before and after any sequence of patches |
| Webhooks.SendableIffTokened | src/client/caching/structures/Webhook.ts:78-101 | send succeeds exactly when delete goes unauthenticated, on the same route; an update without a channel move goes unauthenticated exactly then too |
| Webhooks.DeleteAgreesWithFetch | src/client/caching/structures/Webhook.ts:99-115 | delete uses the route and authentication that fetching the webhook by its own id and token uses |
| Webhooks.ChannelMoveNeedsAuth | src/client/caching/structures/Webhook.ts:87-92 | an update body with a channel_id is always authenticated, and the tokened route never carries a channel_id |

## Left out

- `createdTimestamp` and `createdAt` (Webhook.ts:62-71) decode the id through `Snowflake`. `util/Snowflake` is not part of this model, so neither getter is modelled.
- The `client` field and the actual calls through `client.api` are I/O. Requests are returned as descriptors, and the REST client (with its rate limiting and errors) is not part of this model.
- `Routes` from `util/Constants` is not part of this model. Routes are the opaque constructors `WebhookRoute` and `TokenedRoute`.
- The `async`/Promise plumbing: a rejected promise from `send` is the `Err(TokenUnknown)` result.
- The commented-out `guild` and `channel` getters (Webhook.ts:44-57) have no behaviour.
- `WebhookType` and `APIUserData` come from `util/types/DiscordAPI`, which is not part of this model. The type is kept as its numeric code. A user is held as a value with two stand-in fields (`id`, `username`); the source shares the payload's object, which nothing in the core mutates.
- The data of `send` may be any JSON value; the model narrows it to a string (`MessageData`) standing for that value. The data is passed through unchanged, so no request chosen by the model depends on this.
- `GuildChannelStore` (dist/src/lib/caching/stores/GuildChannelStore.d.ts) is a type declaration without bodies. Its store operations and the name, topic and rate-limit bounds in its doc comments are enforced by no code shown, so they are not modelled.
