/** The Google Calendar controller (app/src/controllers/googleCalendarController.ts):
    the OAuth `state` string that carries the user id through the consent
    screen, the callback that stores the user's Google tokens, and the events
    endpoint that clears them when Google refuses them. The OAuth client,
    the calendar API and the uuid generator are parameters. */
module Calendar {
  import opened Common
  import opened Text
  import opened Models
  import Resolvers

  const UserIdTag: string := "userId:"
  const TempTag: string := "temp:"

  /** `process.env.FRONTEND_URL || 'http://localhost:3000'`. */
  function FrontendUrl(env: string): (url: string)
    ensures env != "" ==> url == env
    ensures env == "" ==> url == "http://localhost:3000"
  {
    if env != "" then env else "http://localhost:3000"
  }

  /** The state built for the consent screen: the app's user id when the
      request carries one, otherwise a fresh uuid under the temporary tag. */
  function EncodeState(userId: string, uuid: string): (state: string)
    ensures userId != "" ==> state == UserIdTag + userId && StartsWith(state, UserIdTag)
    ensures userId == "" ==> state == TempTag + uuid && !StartsWith(state, UserIdTag)
  {
    if userId != "" then UserIdTag + userId
    else
      var state := TempTag + uuid;
      assert state[0] != UserIdTag[0];
      state
  }

  /** The id the callback reads back from a state: for a state starting with
      `userId:`, the text between its first and second ':'; None for every
      other state (temporary, empty or anything else). */
  function DecodeState(state: string): (id: Option<string>)
    ensures id.Some? <==> StartsWith(state, UserIdTag)
    ensures id.Some? ==> ':' !in id.value
    ensures id.Some? ==> id.value == Split(state[|UserIdTag|..], ':')[0]
  {
    if StartsWith(state, UserIdTag) then
      var rest := state[|UserIdTag|..];
      assert state == "userId" + [':'] + rest;
      SplitAfterPiece("userId", rest, ':');
      Some(Split(state, ':')[1])
    else None
  }

  /** The state round trip: a user id without ':' comes back unchanged. */
  lemma DecodeEncodedUserId(userId: string, uuid: string)
    requires userId != "" && ':' !in userId
    ensures DecodeState(EncodeState(userId, uuid)) == Some(userId)
  {
    var state := EncodeState(userId, uuid);
    assert state[|UserIdTag|..] == userId;
    SplitWithoutSep(userId, ':');
  }

  /** A temporary state names no user. */
  lemma TempStateNamesNoUser(uuid: string)
    ensures DecodeState(EncodeState("", uuid)) == None
  {
  }

  /** What the token exchange gave: "" and 0 stand for an absent field. */
  datatype Tokens = Tokens(accessToken: string, refreshToken: string, expiryDate: int)

  /** `oauth2Client.getToken(code)`: the tokens, or a throw. */
  datatype Exchange = Exchanged(tokens: Tokens) | ExchangeFailed

  /** The response a handler sends. */
  datatype Reply = Redirect(url: string) | Status(code: int, body: string) | EventsJson(items: seq<string>)

  /** The user collection after a handler, and its reply. */
  datatype Outcome = Outcome(users: map<Id, User>, reply: Reply)

  /** The fields the callback writes: both tokens, and the expiry as a date,
      or null when the exchange gave none. */
  function StoredLink(t: Tokens): (link: GoogleLink)
    ensures link.accessToken == Some(t.accessToken) && link.refreshToken == Some(t.refreshToken)
    ensures link.expiryDate.None? <==> t.expiryDate == 0
    ensures link.expiryDate.Some? ==> link.expiryDate.value == t.expiryDate
  {
    GoogleLink(Some(t.accessToken), Some(t.refreshToken), if t.expiryDate != 0 then Some(t.expiryDate) else None)
  }

  /** The condition under which the callback stores tokens: a non-empty user
      id decoded from the state, and both tokens present. */
  predicate Linkable(state: string, t: Tokens) {
    DecodeState(state).Some? && DecodeState(state).value != "" && t.accessToken != "" && t.refreshToken != ""
  }

  /** `GET /auth/google/callback`. */
  function CallbackStep(users: map<Id, User>, error: string, code: string, state: string,
                        exchange: string -> Exchange, encode: string -> string, env: string): (o: Outcome)
    ensures error != "" ==>
              o == Outcome(users, Redirect(FrontendUrl(env) + "/profile?google_auth_error=" + encode(error)))
    ensures error == "" && code == "" ==> o == Outcome(users, Status(400, "Authorization code missing."))
    ensures error == "" && code != "" && exchange(code).ExchangeFailed? ==>
              o == Outcome(users, Redirect(FrontendUrl(env) + "/profile?google_auth_error=token_exchange_failed"))
    ensures error == "" && code != "" && exchange(code).Exchanged? && !Linkable(state, exchange(code).tokens) ==>
              o == Outcome(users, Redirect(FrontendUrl(env) + "/profile?google_auth_error=user_identification_failed"))
    ensures error == "" && code != "" && exchange(code).Exchanged? && Linkable(state, exchange(code).tokens) ==>
              var id := DecodeState(state).value;
              o.reply == Redirect(FrontendUrl(env) + "/profile?google_auth_success=true")
              && o.users == (if id in users then users[id := users[id].(google := StoredLink(exchange(code).tokens))]
                             else users)
    ensures o.users.Keys == users.Keys
    ensures forall id :: id in users ==> o.users[id] == users[id].(google := o.users[id].google)
  {
    var frontend := FrontendUrl(env);
    if error != "" then Outcome(users, Redirect(frontend + "/profile?google_auth_error=" + encode(error)))
    else if code == "" then Outcome(users, Status(400, "Authorization code missing."))
    else match exchange(code)
      case ExchangeFailed => Outcome(users, Redirect(frontend + "/profile?google_auth_error=token_exchange_failed"))
      case Exchanged(t) =>
        if Linkable(state, t) then
          var id := DecodeState(state).value;
          var written := if id in users then users[id := users[id].(google := StoredLink(t))] else users;
          Outcome(written, Redirect(frontend + "/profile?google_auth_success=true"))
        else Outcome(users, Redirect(frontend + "/profile?google_auth_error=user_identification_failed"))
  }

  /** A consent started without a logged-in user never stores tokens. */
  lemma TempStateStoresNothing(users: map<Id, User>, code: string, uuid: string,
                               exchange: string -> Exchange, encode: string -> string, env: string)
    ensures CallbackStep(users, "", code, EncodeState("", uuid), exchange, encode, env).users == users
  {
    TempStateNamesNoUser(uuid);
  }

  /** A consent started by a logged-in user whose exchange gives both tokens
      links exactly that user. */
  lemma LoggedInConsentLinksUser(users: map<Id, User>, userId: Id, uuid: string, code: string,
                                 exchange: string -> Exchange, encode: string -> string, env: string)
    requires userId != "" && ':' !in userId && userId in users && code != ""
    requires exchange(code).Exchanged? && exchange(code).tokens.accessToken != ""
             && exchange(code).tokens.refreshToken != ""
    ensures var o := CallbackStep(users, "", code, EncodeState(userId, uuid), exchange, encode, env);
            o.users == users[userId := users[userId].(google := StoredLink(exchange(code).tokens))]
            && o.reply == Redirect(FrontendUrl(env) + "/profile?google_auth_success=true")
  {
    DecodeEncodedUserId(userId, uuid);
  }

  /** `calendar.events.list`: the events, or an error carrying the HTTP status
      of Google's response (0 when there was no response). */
  datatype CalendarReply = Events(items: seq<string>) | ApiError(status: int)

  /** JavaScript truthiness of an optional string field. */
  predicate Present(field: Option<string>) {
    field.Some? && field.value != ""
  }

  /** `GET /api/calendar/events`: 401 without a user id and 403 when the user
      is missing or has no access token, both before the calendar is asked.
      A 401 from Google clears exactly the three Google fields of the user;
      any other error answers 500 and changes nothing. */
  function EventsStep(users: map<Id, User>, userId: string, list: (Option<string>, Option<string>) -> CalendarReply)
    : (o: Outcome)
    ensures userId == "" ==> o == Outcome(users, Status(401, "User not authenticated."))
    ensures userId != "" && (userId !in users || !Present(users[userId].google.accessToken)) ==>
              o == Outcome(users, Status(403, "Google Calendar not linked for this user."))
    ensures o.users != users ==>
              userId in users && o.users == users[userId := users[userId].(google := Unlinked)]
    ensures o.reply.Status? && o.reply.code == 500 ==> o.users == users
    ensures userId != "" && userId in users && Present(users[userId].google.accessToken) ==>
              var answer := list(users[userId].google.accessToken, users[userId].google.refreshToken);
              && (answer.Events? ==> o == Outcome(users, EventsJson(answer.items)))
              && (answer == ApiError(401) ==>
                    o == Outcome(users[userId := users[userId].(google := Unlinked)],
                                 Status(401, "Google authentication error. Please re-authenticate with Google.")))
              && (answer.ApiError? && answer.status != 401 ==>
                    o == Outcome(users, Status(500, "Failed to fetch calendar events.")))
  {
    if userId == "" then Outcome(users, Status(401, "User not authenticated."))
    else if userId !in users || !Present(users[userId].google.accessToken) then
      Outcome(users, Status(403, "Google Calendar not linked for this user."))
    else
      var user := users[userId];
      match list(user.google.accessToken, user.google.refreshToken)
      case Events(items) => Outcome(users, EventsJson(items))
      case ApiError(status) =>
        if status == 401 then
          Outcome(users[userId := user.(google := Unlinked)],
                  Status(401, "Google authentication error. Please re-authenticate with Google."))
        else Outcome(users, Status(500, "Failed to fetch calendar events."))
  }

  /** The 401 and 403 guards answer before the calendar is asked: the outcome
      is the same whatever the calendar would have answered. */
  lemma EventsGuardsCallNothing(users: map<Id, User>, userId: string,
                                list1: (Option<string>, Option<string>) -> CalendarReply,
                                list2: (Option<string>, Option<string>) -> CalendarReply)
    requires userId == "" || userId !in users || !Present(users[userId].google.accessToken)
    ensures EventsStep(users, userId, list1) == EventsStep(users, userId, list2)
  {
  }

  /** A refused token is cleared: after a 401 from Google the user must link
      the calendar again, and the next call stops at the 403 guard. */
  lemma RefusedTokenForcesRelink(users: map<Id, User>, userId: string,
                                 list: (Option<string>, Option<string>) -> CalendarReply,
                                 next: (Option<string>, Option<string>) -> CalendarReply)
    requires userId != "" && userId in users && Present(users[userId].google.accessToken)
    requires list(users[userId].google.accessToken, users[userId].google.refreshToken) == ApiError(401)
    ensures var after := EventsStep(users, userId, list).users;
            EventsStep(after, userId, next) == Outcome(after, Status(403, "Google Calendar not linked for this user."))
  {
    var after := EventsStep(users, userId, list).users;
    assert after == users[userId := users[userId].(google := Unlinked)];
    assert !Present(after[userId].google.accessToken);
  }

  /** The callback handler, writing through the shared user collection. */
  method Callback(store: Resolvers.Store, error: string, code: string, state: string,
                  exchange: string -> Exchange, encode: string -> string, env: string) returns (reply: Reply)
    requires store.Valid()
    modifies store
    ensures store.Valid()
    ensures store.users == CallbackStep(old(store.users), error, code, state, exchange, encode, env).users
    ensures reply == CallbackStep(old(store.users), error, code, state, exchange, encode, env).reply
    ensures store.vehicles == old(store.vehicles) && store.records == old(store.records)
  {
    var frontend := FrontendUrl(env);
    if error != "" {
      return Redirect(frontend + "/profile?google_auth_error=" + encode(error));
    }
    if code == "" {
      return Status(400, "Authorization code missing.");
    }
    var exchanged := exchange(code);
    if exchanged.ExchangeFailed? {
      return Redirect(frontend + "/profile?google_auth_error=token_exchange_failed");
    }
    var tokens := exchanged.tokens;
    var target: string := "";
    if StartsWith(state, UserIdTag) {
      target := DecodeState(state).value;
    }
    if target != "" && tokens.accessToken != "" && tokens.refreshToken != "" {
      if target in store.users {
        var user := store.users[target];
        store.users := store.users[target := user.(google := StoredLink(tokens))];
      }
      return Redirect(frontend + "/profile?google_auth_success=true");
    }
    return Redirect(frontend + "/profile?google_auth_error=user_identification_failed");
  }

  /** The events handler, writing through the shared user collection. */
  method ListEvents(store: Resolvers.Store, userId: string,
                    list: (Option<string>, Option<string>) -> CalendarReply) returns (reply: Reply)
    requires store.Valid()
    modifies store
    ensures store.Valid()
    ensures store.users == EventsStep(old(store.users), userId, list).users
    ensures reply == EventsStep(old(store.users), userId, list).reply
    ensures store.vehicles == old(store.vehicles) && store.records == old(store.records)
  {
    if userId == "" {
      return Status(401, "User not authenticated.");
    }
    if userId !in store.users || !Present(store.users[userId].google.accessToken) {
      return Status(403, "Google Calendar not linked for this user.");
    }
    var user := store.users[userId];
    var answer := list(user.google.accessToken, user.google.refreshToken);
    if answer.Events? {
      return EventsJson(answer.items);
    }
    if answer.status == 401 {
      store.users := store.users[userId := user.(google := Unlinked)];
      return Status(401, "Google authentication error. Please re-authenticate with Google.");
    }
    return Status(500, "Failed to fetch calendar events.");
  }
}
