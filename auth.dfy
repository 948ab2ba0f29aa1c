/**
  The role hierarchy and profile provisioning of src/lib/firebase/auth.ts.
  The "users" collection is a map from uid to profile; the identity provider
  is outside the model, and what it answered is passed in as a `Result`.
 */
module Auth {
  import opened Common

  datatype Role = Viewer | Manager | Admin

  /** The string a role is stored as. */
  function RoleName(r: Role): string
  {
    match r
    case Viewer => "viewer"
    case Manager => "manager"
    case Admin => "admin"
  }

  /** The `roleHierarchy` record: viewer 1, manager 2, admin 3; any other string is absent. */
  function RoleLevel(name: string): Option<int>
  {
    if name == "viewer" then Some(1)
    else if name == "manager" then Some(2)
    else if name == "admin" then Some(3)
    else None
  }

  function Level(r: Role): int
  {
    match r
    case Viewer => 1
    case Manager => 2
    case Admin => 3
  }

  /** A stored profile. Its role is a string: the database does not enforce the three names. */
  datatype UserProfile = UserProfile(
    uid: string,
    email: string,
    displayName: string,
    role: string,
    createdAt: Timestamp,
    updatedAt: Timestamp)

  /** What the identity provider reports about a signed-in account. */
  datatype AuthUser = AuthUser(uid: string, email: Option<string>, displayName: Option<string>)

  datatype SignedIn = SignedIn(user: AuthUser, profile: UserProfile)

  const ProfileNotFound := "User profile not found. Please contact administrator."

  /**
    `hasRole(profile, required)`: a missing profile never passes; otherwise the
    profile's level must reach the required level. A stored role outside the
    table has no level, and JavaScript's `undefined >= n` is false.
   */
  function HasRole(profile: Option<UserProfile>, required: Role): bool
  {
    profile.Some? &&
    var level := RoleLevel(profile.value.role);
    level.Some? && level.value >= Level(required)
  }

  /** `hasRole` holds exactly when the profile names a role at least as high as the requirement. */
  lemma HasRoleMeaning(profile: Option<UserProfile>, required: Role)
    ensures HasRole(profile, required) <==>
      exists r: Role :: profile.Some? && profile.value.role == RoleName(r) && Level(r) >= Level(required)
  {
    if HasRole(profile, required) {
      var l := RoleLevel(profile.value.role).value;
      var r := if l == 1 then Viewer else if l == 2 then Manager else Admin;
      assert profile.value.role == RoleName(r);
    }
  }

  lemma RoleLevelOfName(r: Role)
    ensures RoleLevel(RoleName(r)) == Some(Level(r))
  {
  }

  lemma HasRoleNull(required: Role)
    ensures !HasRole(None, required)
  {
  }

  /** An admin passes every requirement, and every profile with a known role passes "viewer". */
  lemma HasRoleExtremes(p: UserProfile, required: Role)
    ensures p.role == "admin" ==> HasRole(Some(p), required)
    ensures RoleLevel(p.role).Some? ==> HasRole(Some(p), Viewer)
  {
  }

  /** Passing a requirement implies passing every lower one. */
  lemma HasRoleMonotone(p: Option<UserProfile>, lower: Role, higher: Role)
    requires Level(lower) <= Level(higher)
    requires HasRole(p, higher)
    ensures HasRole(p, lower)
  {
  }

  /** `user.displayName || user.email || "Admin User"`. */
  function DefaultDisplayName(user: AuthUser): string
  {
    OptOrElse(user.displayName, OptOrElse(user.email, "Admin User"))
  }

  /** `error.message || fallback`: the message a caught error is rethrown with. */
  function Rethrown(msg: string, fallback: string): string
  {
    OrElse(msg, fallback)
  }

  class AuthService {
    /** The "users" collection. */
    var profiles: map<string, UserProfile>
    /** The next value `serverTimestamp()` resolves to. */
    var now: Timestamp
    /** The uid of every profile document written, in order. */
    ghost var writes: seq<string>

    constructor (profiles0: map<string, UserProfile>, now0: Timestamp)
      ensures profiles == profiles0 && now == now0 && writes == []
    {
      profiles := profiles0;
      now := now0;
      writes := [];
    }

    /** `getUserProfile(uid)`: null for a missing document and, equally, for a failed read. */
    method GetUserProfile(uid: string, readOk: bool) returns (p: Option<UserProfile>)
      ensures p.Some? <==> readOk && uid in profiles
      ensures p.Some? ==> p.value == profiles[uid] && p.value in profiles.Values
    {
      if readOk && uid in profiles {
        p := Some(profiles[uid]);
      } else {
        p := None;
      }
    }

    /**
      `ensureUserProfile(user, role = "admin")`: an existing profile is returned as it is,
      with no write; otherwise a new profile is written under the user's uid. A failed
      read looks like a missing profile, so it also leads to a write.
     */
    method EnsureUserProfile(user: AuthUser, role: Option<Role>, readOk: bool) returns (p: UserProfile)
      modifies this
      ensures readOk && user.uid in old(profiles) ==>
        p == old(profiles)[user.uid] && profiles == old(profiles) && now == old(now) && writes == old(writes)
      ensures !(readOk && user.uid in old(profiles)) ==>
        && p == UserProfile(user.uid, OptOrElse(user.email, ""), DefaultDisplayName(user),
                            RoleName(if role.Some? then role.value else Admin), old(now), old(now))
        && profiles == old(profiles)[user.uid := p]
        && now == old(now) + 1
        && writes == old(writes) + [user.uid]
    {
      var existing := GetUserProfile(user.uid, readOk);
      if existing.Some? {
        return existing.value;
      }
      var r := if role.Some? then role.value else Admin;
      p := UserProfile(user.uid, OptOrElse(user.email, ""), DefaultDisplayName(user), RoleName(r), now, now);
      profiles := profiles[user.uid := p];
      now := now + 1;
      writes := writes + [user.uid];
    }

    /**
      `signIn(email, password)`: the provider's verdict is `provider`. An account
      without a readable profile is refused with the "profile not found" message.
      Nothing is written.
     */
    method SignIn(provider: Result<AuthUser>, readOk: bool) returns (r: Result<SignedIn>)
      ensures provider.Err? ==> r == Err(Rethrown(provider.msg, "Failed to sign in"))
      ensures provider.Ok? && !(readOk && provider.value.uid in profiles) ==> r == Err(ProfileNotFound)
      ensures provider.Ok? && readOk && provider.value.uid in profiles ==>
        r == Ok(SignedIn(provider.value, profiles[provider.value.uid]))
    {
      if provider.Err? {
        return Err(Rethrown(provider.msg, "Failed to sign in"));
      }
      var user := provider.value;
      var profile := GetUserProfile(user.uid, readOk);
      if profile.None? {
        return Err(ProfileNotFound);
      }
      r := Ok(SignedIn(user, profile.value));
    }

    /** `signInWithGoogle()`: a first-time account is provisioned with role "admin". */
    method SignInWithGoogle(popup: Result<AuthUser>, readOk: bool) returns (r: Result<SignedIn>)
      modifies this
      ensures popup.Err? ==> r == Err(Rethrown(popup.msg, "Failed to sign in with Google")) && profiles == old(profiles)
      ensures popup.Ok? ==>
        r.Ok? && r.value.user == popup.value && popup.value.uid in profiles && profiles[popup.value.uid] == r.value.profile
      ensures popup.Ok? && !(readOk && popup.value.uid in old(profiles)) ==> r.value.profile.role == "admin"
      ensures popup.Ok? && readOk && popup.value.uid in old(profiles) ==> profiles == old(profiles)
    {
      if popup.Err? {
        return Err(Rethrown(popup.msg, "Failed to sign in with Google"));
      }
      var profile := EnsureUserProfile(popup.value, Some(Admin), readOk);
      r := Ok(SignedIn(popup.value, profile));
    }

    /**
      `createUser(email, password, displayName, role = "viewer")`: the provider
      creates the account, then its profile is written, always (an existing
      profile under the same uid is overwritten).
     */
    method CreateUser(provider: Result<AuthUser>, email: string, displayName: string, role: Option<Role>)
      returns (r: Result<SignedIn>)
      modifies this
      ensures provider.Err? ==>
        r == Err(Rethrown(provider.msg, "Failed to create user")) && profiles == old(profiles) && writes == old(writes)
      ensures provider.Ok? ==>
        && r.Ok?
        && r.value.profile == UserProfile(provider.value.uid, OptOrElse(provider.value.email, email), displayName,
                                          RoleName(if role.Some? then role.value else Viewer), old(now), old(now))
        && profiles == old(profiles)[provider.value.uid := r.value.profile]
        && writes == old(writes) + [provider.value.uid]
    {
      if provider.Err? {
        return Err(Rethrown(provider.msg, "Failed to create user"));
      }
      var user := provider.value;
      var r0 := if role.Some? then role.value else Viewer;
      var profile := UserProfile(user.uid, OptOrElse(user.email, email), displayName, RoleName(r0), now, now);
      profiles := profiles[user.uid := profile];
      now := now + 1;
      writes := writes + [user.uid];
      r := Ok(SignedIn(user, profile));
    }
  }
}
