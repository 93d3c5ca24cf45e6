/** The user document: profile fields with their schema defaults, the follow
    graph, push tokens and the reset code, and the pre-save hook that gives a
    new user a unique `userName`. */
module UserModel {
  import opened Common

  const DefaultBio: string := "Hey there \U{1F44B} ! , i am using Ram Chatt \U{1F389}"

  /** The nested `resetCode` path; both parts are absent until a code is issued. */
  datatype ResetCode = ResetCode(code: Option<string>, expiration: Option<int>)

  const NoResetCode: ResetCode := ResetCode(None, None)

  // ---------------------------------------------------------------------------
  // User names

  /** The `username` virtual: '@', the lower-cased first and last names, trimmed. */
  function UsernameVirtual(firstName: string, lastName: string): (r: string)
  {
    Trim("@" + ToLower(firstName) + ToLower(lastName))
  }

  /** The name starts with '@', keeps the lower-cased names and loses exactly
      the trailing whitespace of the last name (the leading '@' stops the trim
      at the front). */
  lemma UsernameShape(firstName: string, lastName: string)
    ensures var r := UsernameVirtual(firstName, lastName);
            var raw := "@" + ToLower(firstName) + ToLower(lastName);
            && |r| >= 1 && r[0] == '@'
            && r == raw[..|r|] && AllWhitespace(raw[|r|..])
            && !IsWhitespace(r[|r| - 1])
  {
    var raw := "@" + ToLower(firstName) + ToLower(lastName);
    assert raw[0] == '@' && !IsWhitespace(raw[0]);
    assert TrimStart(raw) == raw;
    assert !AllWhitespace(raw);
  }

  /** The candidate tried in round `k` of the probing loop: the base name, then
      the base followed by 1, 2, … */
  function Candidate(base: string, k: nat): string
  {
    if k == 0 then base else base + Decimal(k)
  }

  /** Distinct rounds try distinct names, so the loop never retries a name. */
  lemma CandidateInjective(base: string, a: nat, b: nat)
    requires Candidate(base, a) == Candidate(base, b)
    ensures a == b
  {
    if a != 0 && b != 0 {
      assert Decimal(a) == Candidate(base, a)[|base|..];
      assert Decimal(b) == Candidate(base, b)[|base|..];
      DecimalInjective(a, b);
    }
  }

  /** The loop of the pre-save hook: probe `base`, `base1`, `base2`, … until a
      name no stored user has. `taken` is the set of stored user names. */
  method UniqueUserName(base: string, taken: set<string>) returns (userName: string)
    ensures userName !in taken
    ensures base !in taken ==> userName == base
    ensures exists k: nat :: userName == Candidate(base, k) && forall j: nat :: j < k ==> Candidate(base, j) in taken
  {
    userName := base;
    var count: nat := 1;
    ghost var tried: set<string> := {};
    while userName in taken
      invariant userName == Candidate(base, count - 1)
      invariant count >= 1
      invariant tried <= taken
      invariant forall j: nat :: j < count - 1 ==> Candidate(base, j) in tried
      invariant forall s :: s in tried ==> exists j: nat :: j < count - 1 && s == Candidate(base, j)
      decreases |taken - tried|
    {
      if userName in tried {
        var j: nat :| j < count - 1 && userName == Candidate(base, j);
        CandidateInjective(base, j, count - 1);
      }
      assert taken - (tried + {userName}) < taken - tried;
      tried := tried + {userName};
      userName := base + Decimal(count);
      count := count + 1;
    }
  }

  // ---------------------------------------------------------------------------
  // The document

  /** The value of a user document, field by field. */
  datatype UserDoc = UserDoc(
    id: Id, firstName: string, lastName: string, fullName: string,
    userName: Option<string>, bio: Option<string>, email: string, password: string,
    emailVerified: bool, isAdmin: bool, verified: bool,
    pushToken: seq<string>, followers: seq<Id>, following: seq<Id>,
    resetCode: ResetCode, isNew: bool)

  class User {
    const id: Id
    var firstName: string
    var lastName: string
    var fullName: string
    var userName: Option<string>
    var bio: Option<string>
    var email: string
    var password: string
    var emailVerified: bool
    var isAdmin: bool
    var verified: bool
    var pushToken: seq<string>
    var followers: seq<Id>
    var following: seq<Id>
    var resetCode: ResetCode
    var isNew: bool

    function Doc(): UserDoc
      reads this
    {
      UserDoc(id, firstName, lastName, fullName, userName, bio, email, password,
              emailVerified, isAdmin, verified, pushToken, followers, following,
              resetCode, isNew)
    }

    /** `new User({...})` before its first save: the email goes through the
        schema's `lowercase` setter and the other fields take their defaults. */
    constructor (id: Id, firstName: string, lastName: string, fullName: string, email: string, password: string)
      ensures this.id == id && this.firstName == firstName && this.lastName == lastName && this.fullName == fullName
      ensures this.email == ToLower(email) && this.password == password
      ensures !emailVerified && !isAdmin && !verified
      ensures bio == Some(DefaultBio) && userName == None
      ensures pushToken == [] && followers == [] && following == []
      ensures resetCode == NoResetCode && isNew
    {
      this.id := id;
      this.firstName := firstName;
      this.lastName := lastName;
      this.fullName := fullName;
      this.email := ToLower(email);
      this.password := password;
      emailVerified := false;
      isAdmin := false;
      verified := false;
      bio := Some(DefaultBio);
      userName := None;
      pushToken := [];
      followers := [];
      following := [];
      resetCode := NoResetCode;
      isNew := true;
    }

    /** A save: the pre-save hook names a new user, then the document is no
        longer new. `taken` is the set of user names already stored. */
    method Save(taken: set<string>)
      modifies this`userName, this`isNew
      ensures old(isNew) ==> userName.Some? && userName.value !in taken
      ensures old(isNew) && UsernameVirtual(firstName, lastName) !in taken ==>
                userName == Some(UsernameVirtual(firstName, lastName))
      ensures old(isNew) ==> exists k: nat :: userName.value == Candidate(UsernameVirtual(firstName, lastName), k)
      ensures !old(isNew) ==> userName == old(userName)
      ensures !isNew
    {
      if isNew {
        var base := UsernameVirtual(firstName, lastName);
        var name := UniqueUserName(base, taken);
        userName := Some(name);
      }
      isNew := false;
    }
  }
}
