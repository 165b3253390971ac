/**
 * The webhook entity: a cached object whose identity (id, type, channel,
 * guild, token) is fixed when it is built and whose profile (user, name,
 * avatar) is patched in place from later payloads, together with the choice
 * of route, authentication and body made by `send`, `update`, `delete` and
 * the static `fetch`.
 */
module Webhooks {
  import opened Wrappers
  import opened Requests

  /** The numeric webhook type of the chat API (its enumeration is not part of this model). */
  type WebhookType = nat

  /**
   * The user record attached to a webhook, held as a value with two stand-in
   * fields; the source shares the payload's object, which nothing here mutates.
   */
  datatype UserData = UserData(id: string, username: string)

  /** The raw webhook payload received from the API (`APIWebhookData`). */
  datatype WebhookData = WebhookData(
    id: string,
    kind: WebhookType,
    channelId: string,
    guildId: Option<string>,
    token: Option<string>,
    user: Option<UserData>,
    name: Option<string>,
    avatar: Option<string>)

  /** The argument of `update` (`WebhookUpdateData`): every field may be left out. */
  datatype UpdateData = UpdateData(name: Option<string>, avatar: Option<string>, channelId: Option<string>)

  /** The only local failure: `send` on a webhook whose token is not known. */
  datatype WebhookError = TokenUnknown

  /** The message of the error `send` rejects with. */
  function ErrorMessage(e: WebhookError): string
  {
    match e
    case TokenUnknown => "The token on this webhook is unknown. You cannot send messages."
  }

  /** The fields a webhook fixes at construction. */
  datatype Identity = Identity(
    id: string,
    kind: WebhookType,
    channelId: string,
    guildId: Option<string>,
    token: Option<string>)

  /** The fields `_patch` overwrites. */
  datatype Profile = Profile(user: Option<UserData>, name: Option<string>, avatar: Option<string>)

  /** A snapshot of a webhook object's fields. */
  datatype WebhookState = WebhookState(identity: Identity, profile: Profile)

  function IdentityOf(data: WebhookData): Identity
  {
    Identity(data.id, data.kind, data.channelId, data.guildId, data.token)
  }

  function ProfileOf(data: WebhookData): Profile
  {
    Profile(data.user, data.name, data.avatar)
  }

  /** The state of a webhook built from `data`. */
  function Created(data: WebhookData): WebhookState
  {
    WebhookState(IdentityOf(data), ProfileOf(data))
  }

  /** The state after `_patch(data)`: the profile is taken from the payload, the identity is kept. */
  function Patched(s: WebhookState, data: WebhookData): WebhookState
  {
    WebhookState(s.identity, ProfileOf(data))
  }

  /** The state after `_patch` has been applied to each payload of `updates` in turn. */
  function Replay(s: WebhookState, updates: seq<WebhookData>): WebhookState
    decreases |updates|
  {
    if updates == [] then s else Replay(Patched(s, updates[0]), updates[1..])
  }

  class Webhook {
    var id: string
    var kind: WebhookType
    var guildId: Option<string>
    var channelId: string
    var user: Option<UserData>
    var name: Option<string>
    var avatar: Option<string>
    var token: Option<string>

    function State(): WebhookState
      reads this
    {
      WebhookState(Identity(id, kind, channelId, guildId, token), Profile(user, name, avatar))
    }

    /** Fixes the identity fields from the payload, then patches the profile from the same payload. */
    constructor (data: WebhookData)
      ensures id == data.id && kind == data.kind && channelId == data.channelId
      ensures guildId == data.guildId && token == data.token
      ensures user == data.user && name == data.name && avatar == data.avatar
      ensures State() == Created(data)
    {
      id := data.id;
      kind := data.kind;
      channelId := data.channelId;
      guildId := data.guildId;
      token := data.token;
      user, name, avatar := None, None, None;
      new;
      Patch(data);
    }

    /** `_patch`: overwrites the profile in place; the object and its identity stay the same. */
    method Patch(data: WebhookData)
      modifies this`user, this`name, this`avatar
      ensures user == data.user && name == data.name && avatar == data.avatar
      ensures State().identity == old(State().identity)
      ensures State() == Patched(old(State()), data)
    {
      user := data.user;
      name := data.name;
      avatar := data.avatar;
    }

    /**
     * The static `fetch`: asks for the webhook through `FetchRequest(id, token)`
     * and builds a new webhook from the payload `transport` answers with.
     */
    static method Fetch(id: string, token: Option<string>, transport: Request -> WebhookData)
      returns (req: Request, w: Webhook)
      ensures req == FetchRequest(id, token)
      ensures fresh(w)
      ensures w.id == transport(req).id
      ensures w.State() == Created(transport(req))
    {
      req := FetchRequest(id, token);
      var data := transport(req);
      w := new Webhook(data);
    }
  }

  /** `send`: posts the message through the tokened route without authentication, or fails when no token is known. */
  function Send(w: WebhookState, data: MessageData): (r: Result<Request, WebhookError>)
    ensures r.Err? <==> !Truthy(w.identity.token)
    ensures r.Err? ==> r.error == TokenUnknown
    ensures r.Err? ==> ErrorMessage(r.error) == "The token on this webhook is unknown. You cannot send messages."
    ensures r.Ok? ==> r.value.verb == HttpPost && !r.value.auth && r.value.body == MessageBody(data)
    ensures r.Ok? ==> AddressedTo(r.value, w.identity.id, w.identity.token)
  {
    if !Truthy(w.identity.token) then Err(TokenUnknown)
    else Ok(Request(HttpPost, TokenedRoute(w.identity.id, w.identity.token.value), false, MessageBody(data)))
  }

  /**
   * `update`: a channel move, or an edit without a known token, needs the
   * authenticated route and sends the new channel; otherwise the tokened
   * route is used and the body has no channel.
   */
  function Update(w: WebhookState, edit: UpdateData): (r: Request)
    ensures r.verb == HttpPatch && AddressedTo(r, w.identity.id, w.identity.token)
    ensures r.auth <==> Truthy(edit.channelId) || !Truthy(w.identity.token)
    ensures r.body.Edit? && r.body.name == edit.name && r.body.avatar == edit.avatar
    ensures r.body.channelId == if r.auth then edit.channelId else None
    ensures Truthy(edit.channelId) ==> r.body.channelId == edit.channelId
  {
    if Truthy(edit.channelId) || !Truthy(w.identity.token) then
      Request(HttpPatch, WebhookRoute(w.identity.id), true, Edit(edit.name, edit.avatar, edit.channelId))
    else
      Request(HttpPatch, TokenedRoute(w.identity.id, w.identity.token.value), false, Edit(edit.name, edit.avatar, None))
  }

  /** `delete`: the tokened route without authentication when the token is known, the authenticated route otherwise. */
  function Delete(w: WebhookState): (r: Request)
    ensures r.verb == HttpDelete && r.body == NoBody
    ensures AddressedTo(r, w.identity.id, w.identity.token)
    ensures !r.auth <==> Truthy(w.identity.token)
  {
    if Truthy(w.identity.token) then
      Request(HttpDelete, TokenedRoute(w.identity.id, w.identity.token.value), false, NoBody)
    else
      Request(HttpDelete, WebhookRoute(w.identity.id), true, NoBody)
  }

  /** The request of the static `fetch` for the webhook `id`, optionally with its token. */
  function FetchRequest(id: string, token: Option<string>): (r: Request)
    ensures r.verb == HttpGet && r.body == NoBody
    ensures AddressedTo(r, id, token)
    ensures !r.auth <==> Truthy(token)
  {
    if Truthy(token) then
      Request(HttpGet, TokenedRoute(id, token.value), false, NoBody)
    else
      Request(HttpGet, WebhookRoute(id), true, NoBody)
  }

  // Identity and profile

  lemma PatchIdempotent(s: WebhookState, data: WebhookData)
    ensures Patched(Patched(s, data), data) == Patched(s, data)
  {
  }

  /** Of two patches, the later one decides the profile. */
  lemma PatchLastWins(s: WebhookState, first: WebhookData, second: WebhookData)
    ensures Patched(Patched(s, first), second) == Patched(s, second)
  {
  }

  /** No run of patches changes a webhook's identity. */
  lemma {:induction false} ReplayKeepsIdentity(s: WebhookState, updates: seq<WebhookData>)
    ensures Replay(s, updates).identity == s.identity
    decreases |updates|
  {
    if updates != [] {
      ReplayKeepsIdentity(Patched(s, updates[0]), updates[1..]);
    }
  }

  /** After a run of patches the profile is exactly that of the last payload. */
  lemma {:induction false} ReplayLastWins(s: WebhookState, updates: seq<WebhookData>)
    requires updates != []
    ensures Replay(s, updates) == Patched(s, updates[|updates| - 1])
    decreases |updates|
  {
    if |updates| > 1 {
      ReplayLastWins(Patched(s, updates[0]), updates[1..]);
    }
  }

  /** Replaying a run twice over is the same as replaying it once. */
  lemma {:induction false} ReplayIdempotent(s: WebhookState, updates: seq<WebhookData>)
    ensures Replay(Replay(s, updates), updates) == Replay(s, updates)
  {
    if updates != [] {
      ReplayLastWins(s, updates);
      ReplayLastWins(Replay(s, updates), updates);
    }
  }

  // Request selection

  /** However often a webhook is patched, it addresses the API in the same way. */
  lemma {:induction false} ReplayKeepsRequests(s: WebhookState, updates: seq<WebhookData>, data: MessageData, edit: UpdateData)
    ensures Send(Replay(s, updates), data) == Send(s, data)
    ensures Update(Replay(s, updates), edit) == Update(s, edit)
    ensures Delete(Replay(s, updates)) == Delete(s)
  {
    ReplayKeepsIdentity(s, updates);
  }

  /**
   * `send` works exactly when `delete` can go without authentication, and an
   * `update` that moves no channel then goes without authentication too.
   */
  lemma SendableIffTokened(w: WebhookState, data: MessageData, edit: UpdateData)
    ensures Send(w, data).Ok? <==> !Delete(w).auth
    ensures !Truthy(edit.channelId) ==> (Send(w, data).Ok? <==> !Update(w, edit).auth)
    ensures Send(w, data).Ok? ==> Send(w, data).value.route == Delete(w).route
  {
  }

  /** Deleting a webhook uses the route and authentication that fetching it by its own id and token would. */
  lemma DeleteAgreesWithFetch(w: WebhookState)
    ensures Delete(w).route == FetchRequest(w.identity.id, w.identity.token).route
    ensures Delete(w).auth == FetchRequest(w.identity.id, w.identity.token).auth
  {
  }

  /** A channel move is never sent through the tokened route. */
  lemma ChannelMoveNeedsAuth(w: WebhookState, edit: UpdateData)
    ensures Update(w, edit).body.channelId.Some? ==> Update(w, edit).auth
    ensures Update(w, edit).route.TokenedRoute? ==> Update(w, edit).body.channelId == None
  {
  }
}
