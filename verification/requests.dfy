/**
 * Request descriptors: what a webhook operation hands to the REST client.
 * The route builders `Routes.webhook` and `Routes.webhookTokened` and the
 * client itself are not part of this model; a route is kept as the opaque
 * pair of arguments the builder receives.
 */
module Requests {
  import opened Wrappers

  /** `Routes.webhook(id)` and `Routes.webhookTokened(id, token)`. */
  datatype Route =
    | WebhookRoute(id: string)
    | TokenedRoute(id: string, token: string)

  datatype Verb = HttpGet | HttpPost | HttpPatch | HttpDelete

  /** The message payload of `send` is passed through untouched; it is carried as its serialised text. */
  type MessageData = string

  /**
   * The body of a request. `Edit` is the object `{ name, avatar, channel_id }`;
   * a `None` field is a key whose value is `undefined`, which is dropped when
   * the body is serialised, so it is the same as a missing key.
   */
  datatype Body =
    | NoBody
    | MessageBody(data: MessageData)
    | Edit(name: Option<string>, avatar: Option<string>, channelId: Option<string>)

  /**
   * One call on the REST client. `auth` is false when the options say
   * `auth: false`; a request whose options leave `auth` out is taken to ask
   * for authentication, which is what `auth == true` stands for.
   */
  datatype Request = Request(verb: Verb, route: Route, auth: bool, body: Body)

  /** JavaScript truthiness of an optional string: `undefined` and `""` are falsy. */
  predicate Truthy(s: Option<string>)
  {
    s.Some? && s.value != ""
  }

  /**
   * A well-addressed request for the webhook `id` whose token is `token`:
   * it names that webhook, it skips authentication exactly when it goes
   * through the tokened route, and the tokened route only ever carries the
   * webhook's own, non-empty token.
   */
  predicate AddressedTo(req: Request, id: string, token: Option<string>)
  {
    req.route.id == id &&
    (req.auth <==> req.route.WebhookRoute?) &&
    (req.route.TokenedRoute? ==> Truthy(token) && req.route.token == token.value)
  }
}
