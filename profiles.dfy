/** The Profile resolvers of server/src/schemas/resolvers.ts: profiles with a
    set-like list of skills, caller-scoped removal and the login flow. Each
    mutation is a function from the collection before the call to the
    collection after it and the outcome (`Outcome`), and a method of
    `ProfileStore` that makes the same change in place. */
module ProfileResolvers {
  import opened Common
  import opened Models
  import opened MongoOps

  datatype Profile = Profile(name: string, email: string, password: StoredPassword, skills: seq<string>)

  datatype ProfileInput = ProfileInput(name: string, email: string, password: string)

  /** `context.user._id`, when a verified user is attached. */
  type Context = Option<Id>

  /** The server's signToken(name, email, _id); its auth helper is not part of
      this model, so the token is whatever this function gives. */
  type Signer = (string, string, Id) -> string

  /** `{ token, profile }`. */
  datatype ProfileAuth = ProfileAuth(token: string, profileId: Id, profile: Profile)

  /** The profiles collection after a call, and the call's outcome. */
  datatype Outcome<+T> = Outcome(profiles: map<Id, Profile>, result: Result<T>)

  predicate HasEmail(profiles: map<Id, Profile>, email: string) {
    exists id :: id in profiles && profiles[id].email == email
  }

  /** `profile(profileId)` and `findOne({ _id })` generally. */
  function FindProfile(profiles: map<Id, Profile>, id: Id): (r: Option<Profile>)
    ensures r.Some? <==> id in profiles
    ensures r.Some? ==> r.value == profiles[id]
  {
    if id in profiles then Some(profiles[id]) else None
  }

  /** `me`: the caller's profile; without a caller, 'Not Authenticated'. */
  function Me(profiles: map<Id, Profile>, ctx: Context): (r: Result<Option<Profile>>)
    ensures r.Err? <==> ctx.None?
    ensures r.Err? ==> r.error == AuthenticationError("Not Authenticated")
    ensures ctx.Some? ==> r == Ok(FindProfile(profiles, ctx.value))
  {
    match ctx
    case None => Err(AuthenticationError("Not Authenticated"))
    case Some(id) => Ok(FindProfile(profiles, id))
  }

  /** What `login(email, password)` may answer: the AuthenticationError class
      itself (thrown without `new`) for an unknown email; for the profile
      `findOne` picks, a token when the password matches and
      'Not Authenticated' when it does not. */
  ghost predicate LoginAnswer(profiles: map<Id, Profile>, email: string, password: string, sign: Signer,
                              r: Result<ProfileAuth>) {
    if !HasEmail(profiles, email) then r == Err(AuthenticationErrorClass)
    else exists id :: id in profiles && profiles[id].email == email && AnswerFor(profiles, id, password, sign, r)
  }

  /** The answer login gives once it has picked the profile `id`. */
  ghost predicate AnswerFor(profiles: map<Id, Profile>, id: Id, password: string, sign: Signer, r: Result<ProfileAuth>)
    requires id in profiles
  {
    if PasswordMatches(password, profiles[id].password)
    then r == Ok(ProfileAuth(sign(profiles[id].name, profiles[id].email, id), id, profiles[id]))
    else r == Err(AuthenticationError("Not Authenticated"))
  }

  /** `addProfile(input)`: one profile added under the fresh id, password
      hashed, no skills; its token is signed over name, email and id. */
  function AddProfileStep(profiles: map<Id, Profile>, input: ProfileInput, newId: Id, sign: Signer)
    : (o: Outcome<ProfileAuth>)
    requires newId !in profiles
    ensures o.profiles == profiles[newId := Profile(input.name, input.email, Hash(input.password), [])]
    ensures |o.profiles| == |profiles| + 1
    ensures o.result.Ok? && o.result.value.profileId == newId
    ensures o.result.value.token == sign(input.name, input.email, newId)
    ensures o.result.value.profile == o.profiles[newId]
    ensures o.result.value.profile.name == input.name && o.result.value.profile.email == input.email
    ensures o.result.value.profile.password == Hash(input.password) && o.result.value.profile.skills == []
  {
    var profile := Profile(input.name, input.email, Hash(input.password), []);
    Outcome(profiles[newId := profile], Ok(ProfileAuth(sign(input.name, input.email, newId), newId, profile)))
  }

  /** A profile just added logs in with its own password. */
  lemma AddedProfileLogsIn(profiles: map<Id, Profile>, input: ProfileInput, newId: Id, sign: Signer,
                           r: Result<ProfileAuth>)
    requires newId !in profiles && !HasEmail(profiles, input.email)
    requires LoginAnswer(AddProfileStep(profiles, input, newId, sign).profiles, input.email, input.password, sign, r)
    ensures r == Ok(ProfileAuth(sign(input.name, input.email, newId), newId,
                                Profile(input.name, input.email, Hash(input.password), [])))
  {
    var after := AddProfileStep(profiles, input, newId, sign).profiles;
    assert after[newId].email == input.email;
    assert forall id :: id in after && id != newId ==> id in profiles && after[id] == profiles[id];
    var id :| id in after && after[id].email == input.email && AnswerFor(after, id, input.password, sign, r);
    assert id == newId;
  }

  /** `addSkill(profileId, skill)`: without a caller, 'Could not find user' and
      nothing changes. Otherwise the skill is added to the profile named by
      the argument, whoever the caller is, unless it is already there; an
      unknown id changes nothing and returns null. */
  function AddSkillStep(profiles: map<Id, Profile>, ctx: Context, profileId: Id, skill: string)
    : (o: Outcome<Option<Profile>>)
    ensures ctx.None? ==> o == Outcome(profiles, Err(AuthenticationError("Could not find user")))
    ensures ctx.Some? && profileId !in profiles ==> o == Outcome(profiles, Ok(None))
    ensures ctx.Some? && profileId in profiles ==>
              var p := profiles[profileId];
              o.profiles == profiles[profileId := p.(skills := AddToSet(p.skills, skill))]
              && o.result == Ok(Some(o.profiles[profileId]))
              && skill in o.profiles[profileId].skills
              && |p.skills| <= |o.profiles[profileId].skills| <= |p.skills| + 1
              && (skill in p.skills ==> o.profiles == profiles)
  {
    match ctx
    case None => Outcome(profiles, Err(AuthenticationError("Could not find user")))
    case Some(_) =>
      if profileId !in profiles then Outcome(profiles, Ok(None))
      else
        var p := profiles[profileId];
        var updated := p.(skills := AddToSet(p.skills, skill));
        assert skill in p.skills ==> updated == p;
        Outcome(profiles[profileId := updated], Ok(Some(updated)))
  }

  /** Adding the same skill twice is adding it once. */
  lemma {:induction false} AddSkillIdempotent(profiles: map<Id, Profile>, ctx: Context, profileId: Id, skill: string)
    ensures var once := AddSkillStep(profiles, ctx, profileId, skill);
            AddSkillStep(once.profiles, ctx, profileId, skill) == once
  {
    var once := AddSkillStep(profiles, ctx, profileId, skill);
    if ctx.Some? && profileId in profiles {
      assert skill in once.profiles[profileId].skills;
    }
  }

  /** `removeSkill(skill)`: without a caller, 'Could not find user' and nothing
      changes. Otherwise every occurrence of the skill leaves the caller's own
      profile; the `profileId` argument is ignored. */
  function RemoveSkillStep(profiles: map<Id, Profile>, ctx: Context, profileId: Id, skill: string)
    : (o: Outcome<Option<Profile>>)
    ensures ctx.None? ==> o == Outcome(profiles, Err(AuthenticationError("Could not find user")))
    ensures ctx.Some? && ctx.value !in profiles ==> o == Outcome(profiles, Ok(None))
    ensures ctx.Some? && ctx.value in profiles ==>
              var p := profiles[ctx.value];
              o.profiles == profiles[ctx.value := p.(skills := Pull(p.skills, skill))]
              && skill !in o.profiles[ctx.value].skills
              && o.result == Ok(Some(o.profiles[ctx.value]))
    ensures forall id :: id in profiles && Some(id) != ctx ==> id in o.profiles && o.profiles[id] == profiles[id]
  {
    match ctx
    case None => Outcome(profiles, Err(AuthenticationError("Could not find user")))
    case Some(self) =>
      if self !in profiles then Outcome(profiles, Ok(None))
      else
        var p := profiles[self];
        var updated := p.(skills := Pull(p.skills, skill));
        Outcome(profiles[self := updated], Ok(Some(updated)))
  }

  /** The profile a removeSkill names plays no part: only the caller's changes. */
  lemma RemoveSkillIgnoresProfileId(profiles: map<Id, Profile>, ctx: Context, id1: Id, id2: Id, skill: string)
    ensures RemoveSkillStep(profiles, ctx, id1, skill) == RemoveSkillStep(profiles, ctx, id2, skill)
  {
  }

  /** `removeProfile`: without a caller, 'Could not find user' and nothing is
      deleted; otherwise exactly the caller's profile is deleted and returned. */
  function RemoveProfileStep(profiles: map<Id, Profile>, ctx: Context): (o: Outcome<Option<Profile>>)
    ensures ctx.None? ==> o == Outcome(profiles, Err(AuthenticationError("Could not find user")))
    ensures ctx.Some? ==> o.profiles == profiles - {ctx.value} && o.result == Ok(FindProfile(profiles, ctx.value))
    ensures forall id :: id in profiles && Some(id) != ctx ==> id in o.profiles && o.profiles[id] == profiles[id]
  {
    match ctx
    case None => Outcome(profiles, Err(AuthenticationError("Could not find user")))
    case Some(self) => Outcome(profiles - {self}, Ok(FindProfile(profiles, self)))
  }

  /** The profiles collection, updated in place by one method per mutation. */
  class ProfileStore {
    var profiles: map<Id, Profile>

    constructor ()
      ensures profiles == map[]
    {
      profiles := map[];
    }

    method AddProfile(input: ProfileInput, newId: Id, sign: Signer) returns (r: Result<ProfileAuth>)
      requires newId !in profiles
      modifies this
      ensures profiles == AddProfileStep(old(profiles), input, newId, sign).profiles
      ensures r == AddProfileStep(old(profiles), input, newId, sign).result
    {
      var profile := Profile(input.name, input.email, Hash(input.password), []);
      profiles := profiles[newId := profile];
      var token := sign(profile.name, profile.email, newId);
      return Ok(ProfileAuth(token, newId, profile));
    }

    /** `login`: reads the collection and changes nothing. */
    method Login(email: string, password: string, sign: Signer) returns (r: Result<ProfileAuth>)
      ensures LoginAnswer(profiles, email, password, sign, r)
    {
      if !HasEmail(profiles, email) {
        return Err(AuthenticationErrorClass);
      }
      var id :| id in profiles && profiles[id].email == email;
      var profile := profiles[id];
      if !PasswordMatches(password, profile.password) {
        return Err(AuthenticationError("Not Authenticated"));
      }
      var token := sign(profile.name, profile.email, id);
      return Ok(ProfileAuth(token, id, profile));
    }

    method AddSkill(ctx: Context, profileId: Id, skill: string) returns (r: Result<Option<Profile>>)
      modifies this
      ensures profiles == AddSkillStep(old(profiles), ctx, profileId, skill).profiles
      ensures r == AddSkillStep(old(profiles), ctx, profileId, skill).result
    {
      if ctx.None? {
        return Err(AuthenticationError("Could not find user"));
      }
      if profileId !in profiles {
        return Ok(None);
      }
      var profile := profiles[profileId];
      var updated := profile.(skills := AddToSet(profile.skills, skill));
      profiles := profiles[profileId := updated];
      return Ok(Some(updated));
    }

    method RemoveSkill(ctx: Context, profileId: Id, skill: string) returns (r: Result<Option<Profile>>)
      modifies this
      ensures profiles == RemoveSkillStep(old(profiles), ctx, profileId, skill).profiles
      ensures r == RemoveSkillStep(old(profiles), ctx, profileId, skill).result
    {
      if ctx.None? {
        return Err(AuthenticationError("Could not find user"));
      }
      var self := ctx.value;
      if self !in profiles {
        return Ok(None);
      }
      var profile := profiles[self];
      var updated := profile.(skills := Pull(profile.skills, skill));
      profiles := profiles[self := updated];
      return Ok(Some(updated));
    }

    method RemoveProfile(ctx: Context) returns (r: Result<Option<Profile>>)
      modifies this
      ensures profiles == RemoveProfileStep(old(profiles), ctx).profiles
      ensures r == RemoveProfileStep(old(profiles), ctx).result
    {
      if ctx.None? {
        return Err(AuthenticationError("Could not find user"));
      }
      r := Ok(FindProfile(profiles, ctx.value));
      profiles := profiles - {ctx.value};
    }
  }
}
