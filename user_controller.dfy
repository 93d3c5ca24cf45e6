/** The user handlers: follow and unfollow, push-token registration, the
    profile, bio and password updates, the reset-code check and the password
    reset, and the filtering step of the user search. Loaded users are `User?`
    arguments (`null` when the lookup finds nobody); the bcrypt comparison is
    the boolean `passwordMatches`, and the database search result is the list
    `found`. */
module UserController {
  import opened Common
  import opened UserModel
  import opened UserRoutes

  const NotAuthorized: HttpError := HttpError(401, "Not Authorized!")
  const UserNotFound: HttpError := HttpError(404, "User not found!")
  const NoUserFound: HttpError := HttpError(404, "No User found")
  const SelfFollow: HttpError := HttpError(400, "You can't follow yourself!")
  const NoToken: HttpError := HttpError(404, "No token found")
  const EmailInvalid: HttpError := HttpError(400, "Email is invalid!")
  const CodeInvalid: HttpError := HttpError(400, "Reset code is invalid!")
  const CodeExpired: HttpError := HttpError(400, "Reset code has expired!")
  const NoUserForEmail: HttpError := HttpError(400, "No user found!")
  const InvalidCredentials: HttpError := HttpError(400, "Invalid Credentials")
  /** The TypeError of `user.trim()` when the query has no `user`; no status was set. */
  const SearchQueryMissing: HttpError := HttpError(200, "Cannot read properties of undefined (reading 'trim')")

  /** The owner-only guard: the id in the path must be the authenticated user's. */
  function OwnerGuard(pathId: Id, authId: Id): (e: Option<HttpError>)
    ensures e.None? <==> pathId == authId
    ensures e.Some? ==> e.value == NotAuthorized
  {
    if pathId != authId then Some(NotAuthorized) else None
  }

  // ---------------------------------------------------------------------------
  // followUser

  /** The follower's `following` list and the target's `followers` list. */
  datatype FollowLists = FollowLists(following: seq<Id>, followers: seq<Id>)

  datatype FollowOutcome = Followed | Unfollowed

  /** `followUser` after its guards: a target already followed is unfollowed
      (its first entry in `following` spliced out, every entry of the follower
      filtered out of `followers`); otherwise both ids are put at the front. */
  function AfterFollow(l: FollowLists, followerId: Id, targetId: Id): (r: (FollowLists, FollowOutcome))
    ensures r.1 == Followed <==> targetId !in l.following
    ensures r.1 == Followed ==>
              r.0.following == [targetId] + l.following && r.0.followers == [followerId] + l.followers
    ensures r.1 == Unfollowed ==>
              && r.0.following == RemoveFirst(l.following, targetId)
              && followerId !in r.0.followers
              && forall y :: y != followerId ==> multiset(r.0.followers)[y] == multiset(l.followers)[y]
  {
    if targetId in l.following then (FollowLists(RemoveFirst(l.following, targetId), RemoveAll(l.followers, followerId)), Unfollowed)
    else (FollowLists([targetId] + l.following, [followerId] + l.followers), Followed)
  }

  /** Following and then unfollowing gives both lists back. */
  lemma FollowThenUnfollow(l: FollowLists, followerId: Id, targetId: Id)
    requires targetId !in l.following && followerId !in l.followers
    ensures AfterFollow(l, followerId, targetId).1 == Followed
    ensures AfterFollow(AfterFollow(l, followerId, targetId).0, followerId, targetId) == (l, Unfollowed)
  {
    var once := AfterFollow(l, followerId, targetId).0;
    assert IndexOf(once.following, targetId) == 0;
    assert once.following[1..] == l.following && once.followers[1..] == l.followers;
    assert RemoveAt(once.following, 0) == l.following;
    assert RemoveAll(once.followers, followerId) == RemoveAll(l.followers, followerId);
  }

  /** Each call toggles whether the follower follows the target, and the
      `following` list never gains a duplicate. */
  lemma FollowToggles(l: FollowLists, followerId: Id, targetId: Id)
    requires NoDup(l.following)
    ensures var r := AfterFollow(l, followerId, targetId).0;
            (targetId in r.following <==> targetId !in l.following) && NoDup(r.following)
  {
    if targetId in l.following {
      NoDupRemoveFirst(l.following, targetId);
    } else {
      NoDupCons(targetId, l.following);
    }
  }

  /** The guards of `followUser`, in order. */
  function FollowCheck(currentId: Id, targetId: Id, bothFound: bool): (e: Option<HttpError>)
    ensures currentId == targetId ==> e == Some(SelfFollow)
    ensures currentId != targetId ==> (e.None? <==> bothFound)
  {
    if currentId == targetId then Some(SelfFollow)
    else if !bothFound then Some(NoUserFound)
    else None
  }

  /** `followUser`: `target` is the user of the path id, `follower` the user of `currentId`. */
  method FollowUser(target: User?, follower: User?, currentId: Id, targetId: Id) returns (r: Result<FollowOutcome>)
    requires target != null ==> target.id == targetId
    requires follower != null ==> follower.id == currentId
    modifies target, follower
    ensures var check := FollowCheck(currentId, targetId, target != null && follower != null);
            check.Some? ==> r == Err(check.value)
                            && (target != null ==> target.Doc() == old(target.Doc()))
                            && (follower != null ==> follower.Doc() == old(follower.Doc()))
    ensures FollowCheck(currentId, targetId, target != null && follower != null).None? ==>
              && target != null && follower != null
              && var after := AfterFollow(FollowLists(old(follower.following), old(target.followers)), currentId, targetId);
              && follower.Doc() == old(follower.Doc()).(following := after.0.following)
              && target.Doc() == old(target.Doc()).(followers := after.0.followers)
              && r == Ok(after.1)
  {
    if currentId == targetId {
      return Err(SelfFollow);
    }
    if target == null || follower == null {
      return Err(NoUserFound);
    }
    assert target != follower by { assert target.id != follower.id; }
    if targetId in follower.following {
      var followedIndex := IndexOf(follower.following, targetId);
      StoreFollowLists(target, follower, RemoveAt(follower.following, followedIndex), RemoveAll(target.followers, currentId));
      return Ok(Unfollowed);
    }
    StoreFollowLists(target, follower, [targetId] + follower.following, [currentId] + target.followers);
    r := Ok(Followed);
  }

  /** The two writes of `followUser`: the follower's `following` list and the
      target's `followers` list, nothing else. */
  method StoreFollowLists(target: User, follower: User, following: seq<Id>, followers: seq<Id>)
    requires target != follower
    modifies target, follower
    ensures follower.Doc() == old(follower.Doc()).(following := following)
    ensures target.Doc() == old(target.Doc()).(followers := followers)
  {
    follower.following := following;
    target.followers := followers;
  }

  // ---------------------------------------------------------------------------
  // RegisterForPushToken

  /** The token list after a registration, or `None` when the token is already
      there (the handler then returns without a response and saves nothing). */
  function AfterRegisterToken(tokens: seq<string>, token: string): (r: Option<seq<string>>)
    ensures r.None? <==> token in tokens
    ensures r.Some? ==> |r.value| == |tokens| + 1 && r.value[..|tokens|] == tokens && Last(r.value) == token
  {
    if token in tokens then None
    else
      assert (tokens + [token])[..|tokens|] == tokens;
      Some(tokens + [token])
  }

  /** Registration never introduces a duplicate token, and the registered token is then present. */
  lemma RegisterTokenKeepsNoDup(tokens: seq<string>, token: string)
    requires NoDup(tokens)
    ensures var r := AfterRegisterToken(tokens, token);
            r.Some? ==> NoDup(r.value) && token in r.value
  {
    if token !in tokens {
      NoDupAppend(tokens, token);
      assert Last(tokens + [token]) == token;
    }
  }

  /** Registering the same token a second time changes nothing. */
  lemma RegisterTokenTwice(tokens: seq<string>, token: string)
    requires token !in tokens
    ensures AfterRegisterToken(AfterRegisterToken(tokens, token).value, token).None?
  {
    assert (tokens + [token])[|tokens|] == token;
  }

  method RegisterForPushToken(user: User?, token: Option<string>) returns (r: Result<Option<seq<string>>>)
    modifies user
    ensures !Truthy(token) ==> r == Err(NoToken)
    ensures Truthy(token) && user == null ==> r == Err(NoUserFound)
    ensures user != null ==>
              var after := if Truthy(token) then AfterRegisterToken(old(user.pushToken), token.value) else None;
              && (after.Some? ==> user.Doc() == old(user.Doc()).(pushToken := after.value) && r == Ok(Some(user.pushToken)))
              && (after.None? ==> user.Doc() == old(user.Doc()))
              && (Truthy(token) && after.None? ==> r == Ok(None))
  {
    if !Truthy(token) {
      return Err(NoToken);
    }
    if user == null {
      return Err(NoUserFound);
    }
    var tokenData := user.pushToken;
    if token.value in tokenData {
      return Ok(None);
    }
    tokenData := tokenData + [token.value];
    user.pushToken := tokenData;
    r := Ok(Some(user.pushToken));
  }

  // ---------------------------------------------------------------------------
  // updateUser

  /** The profile fields `updateUser` may change. */
  datatype Profile = Profile(firstName: string, lastName: string, fullName: string, email: string,
                             emailVerified: bool, password: string)

  /** The fields `updateUser` reads from the request body. */
  datatype ProfileUpdate = ProfileUpdate(firstName: Option<string>, lastName: Option<string>,
                                         email: Option<string>, password: Option<string>)

  function ProfileOf(u: User): Profile
    reads u
  {
    Profile(u.firstName, u.lastName, u.fullName, u.email, u.emailVerified, u.password)
  }

  /** A user document with its profile fields replaced. */
  function WithProfile(d: UserDoc, p: Profile): UserDoc
  {
    UserDoc(d.id, p.firstName, p.lastName, p.fullName, d.userName, d.bio, p.email, p.password,
            p.emailVerified, d.isAdmin, d.verified, d.pushToken, d.followers, d.following,
            d.resetCode, d.isNew)
  }

  /** `updateUser`'s in-memory merge: names fall back to the stored ones, the
      full name is rebuilt from the merged names, a non-empty email replaces the
      stored one through the `lowercase` setter and marks it unverified, and a
      non-empty password replaces the stored one. */
  function MergeProfile(p: Profile, u: ProfileUpdate): (r: Profile)
    ensures r.fullName == r.firstName + " " + r.lastName
  {
    var first := OrString(u.firstName, p.firstName);
    var last := OrString(u.lastName, p.lastName);
    Profile(first, last, first + " " + last,
            if Truthy(u.email) then ToLower(u.email.value) else p.email,
            if Truthy(u.email) then false else p.emailVerified,
            OrString(u.password, p.password))
  }

  /** Field by field: each changes exactly when the request gives a non-empty value. */
  lemma MergeProfileFieldwise(p: Profile, u: ProfileUpdate)
    ensures var r := MergeProfile(p, u);
            && r.firstName == (if Truthy(u.firstName) then u.firstName.value else p.firstName)
            && r.lastName == (if Truthy(u.lastName) then u.lastName.value else p.lastName)
            && (Truthy(u.email) ==> r.email == ToLower(u.email.value) && !r.emailVerified)
            && (!Truthy(u.email) ==> r.email == p.email && r.emailVerified == p.emailVerified)
            && r.password == (if Truthy(u.password) then u.password.value else p.password)
  {
  }

  /** A request without values only rebuilds the full name; repeating a request
      changes nothing more. */
  lemma MergeProfileIdempotent(p: Profile, u: ProfileUpdate)
    ensures !Truthy(u.firstName) && !Truthy(u.lastName) && !Truthy(u.email) && !Truthy(u.password) ==>
              MergeProfile(p, u) == p.(fullName := p.firstName + " " + p.lastName)
    ensures MergeProfile(MergeProfile(p, u), u) == MergeProfile(p, u)
  {
    if Truthy(u.email) {
      ToLowerIdempotent(u.email.value);
    }
  }

  /** `sendVerificationEmail`'s lookup finds no user holding the address; no status was set. */
  const EmailHolderMissing: HttpError := HttpError(200, "No user found!")
  /** The mail transport failed; no status was set. */
  const MailFailed: HttpError := HttpError(200, "Failed to send email.")
  /** The save of an address another user holds violates the unique email index;
      only the start of the driver's message is kept. */
  const DuplicateEmail: HttpError := HttpError(200, "E11000 duplicate key error")

  /** The verification step `updateUser` runs for a non-empty email before it
      saves. The lookup by the new address (lower-cased by the schema setter)
      finds the user's own stored document when the address is the one stored,
      and otherwise another user only when `otherHolder`; `mailSent` is the
      outcome of the mail transport. Another user's address then fails the save. */
  function EmailStep(stored: string, u: ProfileUpdate, otherHolder: bool, mailSent: bool): (e: Option<HttpError>)
    ensures e.None? <==> !Truthy(u.email) || (stored == ToLower(u.email.value) && mailSent)
    ensures Truthy(u.email) && stored != ToLower(u.email.value) && !otherHolder ==> e == Some(EmailHolderMissing)
    ensures e.Some? ==> e.value.status == 200
  {
    if !Truthy(u.email) then None
    else
      var own := stored == ToLower(u.email.value);
      if !own && !otherHolder then Some(EmailHolderMissing)
      else if !mailSent then Some(MailFailed)
      else if !own then Some(DuplicateEmail)
      else None
  }

  /** An update that gets past the verification step never moves the user to
      another address: a non-empty email is only accepted when it is the stored
      one, and then only its verified flag is reset. */
  lemma UpdateKeepsEmail(p: Profile, u: ProfileUpdate, otherHolder: bool, mailSent: bool)
    requires EmailStep(p.email, u, otherHolder, mailSent).None?
    ensures MergeProfile(p, u).email == p.email
    ensures Truthy(u.email) ==> !MergeProfile(p, u).emailVerified
  {
    if Truthy(u.email) {
      assert p.email == ToLower(u.email.value);
    }
  }

  /** `updateUser`; `user` is the document found for `authId`. When the
      verification step fails the handler throws before its save, so the stored
      document keeps all its fields. */
  method UpdateUser(user: User?, pathId: Id, authId: Id, u: ProfileUpdate, otherHolder: bool, mailSent: bool)
    returns (r: Result<Profile>)
    modifies user
    ensures pathId != authId ==> r == Err(NotAuthorized) && (user != null ==> user.Doc() == old(user.Doc()))
    ensures pathId == authId && user == null ==> r == Err(UserNotFound)
    ensures pathId == authId && user != null && EmailStep(old(user.email), u, otherHolder, mailSent).Some? ==>
              r == Err(EmailStep(old(user.email), u, otherHolder, mailSent).value) && user.Doc() == old(user.Doc())
    ensures pathId == authId && user != null && EmailStep(old(user.email), u, otherHolder, mailSent).None? ==>
              var m := MergeProfile(old(ProfileOf(user)), u);
              user.Doc() == WithProfile(old(user.Doc()), m) && ProfileOf(user) == m && r == Ok(m)
  {
    if OwnerGuard(pathId, authId).Some? {
      return Err(NotAuthorized);
    }
    if user == null {
      return Err(UserNotFound);
    }
    var step := EmailStep(user.email, u, otherHolder, mailSent);
    if step.Some? {
      return Err(step.value);
    }
    var m := MergeProfile(ProfileOf(user), u);
    StoreProfile(user, m);
    r := Ok(m);
  }

  /** The profile assignments of `updateUser`, written to the document. */
  method StoreProfile(user: User, m: Profile)
    modifies user
    ensures user.Doc() == WithProfile(old(user.Doc()), m) && ProfileOf(user) == m
  {
    user.firstName, user.lastName, user.fullName := m.firstName, m.lastName, m.fullName;
    user.email, user.emailVerified, user.password := m.email, m.emailVerified, m.password;
  }

  // ---------------------------------------------------------------------------
  // updateBio and updatePassword

  /** `updateBio`: the bio becomes the request's `body`, even when absent. */
  method UpdateBio(user: User?, pathId: Id, authId: Id, body: Option<string>) returns (r: Result<Option<string>>)
    modifies user
    ensures pathId != authId ==> r == Err(NotAuthorized)
    ensures pathId == authId && user == null ==> r == Err(NoUserFound)
    ensures user != null ==>
              if pathId == authId then user.Doc() == old(user.Doc()).(bio := body) && r == Ok(body)
              else user.Doc() == old(user.Doc())
  {
    if OwnerGuard(pathId, authId).Some? {
      return Err(NotAuthorized);
    }
    if user == null {
      return Err(NoUserFound);
    }
    user.bio := body;
    r := Ok(user.bio);
  }

  /** `updatePassword`: the validators run first, then the owner guard, the
      lookup and the comparison of the old password. */
  method UpdatePassword(user: User?, pathId: Id, authId: Id, b: Body, passwordMatches: bool) returns (r: Result<Profile>)
    modifies user
    ensures Gate(Route.UpdatePassword, b).Some? ==> r == Err(Gate(Route.UpdatePassword, b).value)
    ensures Gate(Route.UpdatePassword, b).None? && pathId != authId ==> r == Err(NotAuthorized)
    ensures Gate(Route.UpdatePassword, b).None? && pathId == authId && user == null ==> r == Err(UserNotFound)
    ensures Gate(Route.UpdatePassword, b).None? && pathId == authId && user != null && !passwordMatches ==>
              r == Err(InvalidCredentials)
    ensures user != null ==>
              if Gate(Route.UpdatePassword, b).None? && pathId == authId && passwordMatches
              then user.Doc() == old(user.Doc()).(password := Field(b, "new_password")) && r == Ok(ProfileOf(user))
              else user.Doc() == old(user.Doc())
  {
    if Gate(Route.UpdatePassword, b).Some? {
      return Err(Gate(Route.UpdatePassword, b).value);
    }
    if OwnerGuard(pathId, authId).Some? {
      return Err(NotAuthorized);
    }
    if user == null {
      return Err(UserNotFound);
    }
    if !passwordMatches {
      return Err(InvalidCredentials);
    }
    user.password := Field(b, "new_password");
    r := Ok(ProfileOf(user));
  }

  /** The owner guard comes before any lookup or change: whatever the database
      holds, a caller acting on someone else's id gets 401. */
  lemma OwnerGuardFirst(pathId: Id, authId: Id)
    requires pathId != authId
    ensures OwnerGuard(pathId, authId) == Some(NotAuthorized)
  {
  }

  // ---------------------------------------------------------------------------
  // validateResetCode and resetPassword

  /** The checks of `validateResetCode` on the user found by email: the stored
      code must equal the request's (`!==`, so two absent codes are equal) and
      a stored expiration must not be before `now`. */
  function CheckResetCode(stored: ResetCode, resetCode: Option<string>, now: int): (e: Option<HttpError>)
    ensures e.None? <==> stored.code == resetCode && (stored.expiration.None? || stored.expiration.value >= now)
    ensures stored.code != resetCode ==> e == Some(CodeInvalid)
    ensures stored.code == resetCode && e.Some? ==> e == Some(CodeExpired)
  {
    if stored.code != resetCode then Some(CodeInvalid)
    else if stored.expiration.Some? && stored.expiration.value < now then Some(CodeExpired)
    else None
  }

  /** A code is still valid at its expiration instant and expired just after. */
  lemma ResetCodeExpiryBoundary(code: string, expiration: int)
    ensures CheckResetCode(ResetCode(Some(code), Some(expiration)), Some(code), expiration).None?
    ensures CheckResetCode(ResetCode(Some(code), Some(expiration)), Some(code), expiration + 1) == Some(CodeExpired)
  {
  }

  /** Once cleared by a password reset, no code matches any more; but a request
      that omits the code passes, since both sides are absent. */
  lemma ClearedCodeAcceptsOnlyOmission(resetCode: Option<string>, now: int)
    ensures CheckResetCode(NoResetCode, resetCode, now).None? <==> resetCode.None?
  {
  }

  method ValidateResetCode(user: User?, resetCode: Option<string>, now: int) returns (r: Result<string>)
    ensures user == null ==> r == Err(EmailInvalid)
    ensures user != null ==>
              var check := CheckResetCode(user.resetCode, resetCode, now);
              if check.Some? then r == Err(check.value) else r == Ok("Reset Code is validated ")
  {
    if user == null {
      return Err(EmailInvalid);
    }
    if user.resetCode.code != resetCode {
      return Err(CodeInvalid);
    }
    var expiration := user.resetCode.expiration;
    if expiration.Some? && expiration.value < now {
      return Err(CodeExpired);
    }
    r := Ok("Reset Code is validated ");
  }

  /** `resetPassword`; `user` is the document found by the request's email. */
  method ResetPassword(user: User?, b: Body) returns (r: Result<string>)
    modifies user
    ensures Gate(Route.ResetPassword, b).Some? ==> r == Err(Gate(Route.ResetPassword, b).value)
    ensures Gate(Route.ResetPassword, b).None? && user == null ==> r == Err(NoUserForEmail)
    ensures user != null ==>
              if Gate(Route.ResetPassword, b).None?
              then user.Doc() == old(user.Doc()).(password := Field(b, "new_password"), resetCode := NoResetCode)
                   && r == Ok("Password reset successfully")
              else user.Doc() == old(user.Doc())
  {
    if Gate(Route.ResetPassword, b).Some? {
      return Err(Gate(Route.ResetPassword, b).value);
    }
    if user == null {
      return Err(NoUserForEmail);
    }
    user.password := Field(b, "new_password");
    user.resetCode := NoResetCode;
    r := Ok("Password reset successfully");
  }

  // ---------------------------------------------------------------------------
  // searchUser

  datatype SearchResult = Matches(users: seq<Id>) | NoUsersFound

  /** The filtering steps of `searchUser` on the users the database query
      returned (`found`, in its order): the requester is skipped, and the final
      `filter(user => user._id !== Id)` compares an ObjectId with a string and
      so keeps everyone. */
  method SearchUsers(query: Option<string>, found: seq<Id>, authId: Id) returns (r: Result<SearchResult>)
    ensures query.None? ==> r == Err(SearchQueryMissing)
    ensures query.Some? && AllWhitespace(query.value) ==> r == Ok(Matches([]))
    ensures query.Some? && !AllWhitespace(query.value) && found == [] ==> r == Ok(NoUsersFound)
    ensures query.Some? && !AllWhitespace(query.value) && found != [] ==> r == Ok(Matches(RemoveAll(found, authId)))
  {
    if query.None? {
      return Err(SearchQueryMissing);
    }
    TrimEmptyIffBlank(query.value);
    if |Trim(query.value)| == 0 {
      return Ok(Matches([]));
    }
    if found == [] {
      return Ok(NoUsersFound);
    }
    var updatedUsers := SkipRequester(found, authId);
    r := Ok(Matches(updatedUsers));
  }

  /** The loop of `searchUser` that builds `updatedUsers`: every user found,
      in order, except the requester. */
  method SkipRequester(found: seq<Id>, authId: Id) returns (updatedUsers: seq<Id>)
    ensures updatedUsers == RemoveAll(found, authId)
  {
    updatedUsers := [];
    for i := 0 to |found|
      invariant updatedUsers == RemoveAll(found[..i], authId)
    {
      RemoveAllSnoc(found[..i], found[i], authId);
      assert found[..i + 1] == found[..i] + [found[i]];
      if found[i] == authId {
        continue;
      }
      updatedUsers := updatedUsers + [found[i]];
    }
    assert found[..|found|] == found;
  }
}
