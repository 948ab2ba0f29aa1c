/**
  The admin panel's session state (src/contexts/AuthContext.tsx): the signed-in
  account, its profile and a loading flag, updated by the auth-change handler,
  and the three flags derived from them.
 */
module AuthContext {
  import opened Common
  import opened Auth

  class AuthProvider {
    var user: Option<AuthUser>
    var userProfile: Option<UserProfile>
    var loading: bool

    /** The state before the first auth event: nobody, still loading. */
    constructor ()
      ensures user == None && userProfile == None && loading
    {
      user := None;
      userProfile := None;
      loading := true;
    }

    /**
      The `onAuthStateChange` callback: record the account, fetch its profile
      (a missing or unreadable profile leaves none) and stop loading.
     */
    method OnAuthStateChange(authUser: Option<AuthUser>, auth: AuthService, readOk: bool)
      modifies this
      ensures user == authUser
      ensures authUser.None? ==> userProfile == None && !IsAuthenticated()
      ensures authUser.Some? ==>
        (userProfile.Some? <==> readOk && authUser.value.uid in auth.profiles)
      ensures userProfile.Some? ==> userProfile.value == auth.profiles[authUser.value.uid]
      ensures !loading
    {
      user := authUser;
      if authUser.Some? {
        var profile := auth.GetUserProfile(authUser.value.uid, readOk);
        userProfile := profile;
      } else {
        userProfile := None;
      }
      loading := false;
    }

    /** `!!user && !!userProfile`. */
    function IsAuthenticated(): bool
      reads this
    {
      user.Some? && userProfile.Some?
    }

    /** `userProfile?.role === "admin"`: the same answer as `hasRole(profile, "admin")`. */
    function IsAdmin(): (b: bool)
      reads this
      ensures b == HasRole(userProfile, Admin)
    {
      userProfile.Some? && userProfile.value.role == "admin"
    }

    /** `role === "admin" || role === "manager"`: the same answer as `hasRole(profile, "manager")`. */
    function IsManager(): (b: bool)
      reads this
      ensures b == HasRole(userProfile, Manager)
      ensures IsAdmin() ==> b
    {
      userProfile.Some? && (userProfile.value.role == "admin" || userProfile.value.role == "manager")
    }
  }
}
