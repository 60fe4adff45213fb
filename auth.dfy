/**
 * Sign-up, sign-in and sign-out over the single stored profile. The stored profile is the
 * whole "account database": signing in with another e-mail replaces it.
 */
module Auth {
  import opened Wrappers
  import opened Types
  import opened Storage

  /** The profile `signUp` stores: logged in, nothing chosen yet. */
  function SignedUp(userId: string, email: string, displayName: Option<string>): UserProfile {
    UserProfile(userId, true, email, displayName, [], None, None, None, false,
                Newsletter(false, Weekly), StandardDepth)
  }

  /** The profile stored after `signIn(email)`. */
  function SignedIn(stored: Option<UserProfile>, email: string, freshUserId: string): UserProfile {
    if stored.Some? && stored.value.email == email then stored.value.(isLoggedIn := true)
    else SignedUp(freshUserId, email, None)
  }

  /** The slot after `signOut()`. */
  function SignedOut(stored: Option<UserProfile>): Option<UserProfile> {
    match stored
    case None => None
    case Some(p) => Some(p.(isLoggedIn := false))
  }

  /** `getCurrentUser()` on a slot. */
  function CurrentUser(stored: Option<UserProfile>): (r: Option<UserProfile>)
    ensures r.Some? <==> stored.Some? && stored.value.isLoggedIn
    ensures r.Some? ==> r == stored
  {
    if stored.Some? && stored.value.isLoggedIn then stored else None
  }

  function AuthUserOf(p: UserProfile): AuthUser {
    AuthUser(p.userId, p.email, p.displayName)
  }

  // ---------------------------------------------------------------------------
  // What the transitions mean
  // ---------------------------------------------------------------------------

  /** Signing in with the stored e-mail keeps every field, the user id included, and only logs in. */
  lemma SignInRestoresStoredProfile(stored: UserProfile, email: string, freshUserId: string)
    requires stored.email == email
    ensures SignedIn(Some(stored), email, freshUserId).isLoggedIn
    ensures SignedIn(Some(stored), email, freshUserId).(isLoggedIn := stored.isLoggedIn) == stored
  {
  }

  /** Signing in with another e-mail, or with nothing stored, starts a fresh profile without a display name. */
  lemma SignInWithOtherEmailStartsOver(stored: Option<UserProfile>, email: string, freshUserId: string)
    requires stored.None? || stored.value.email != email
    ensures var p := SignedIn(stored, email, freshUserId);
      p.userId == freshUserId && p.email == email && p.displayName.None? && p.interests == []
      && !p.onboardingComplete && p.isLoggedIn
  {
  }

  /** Signing out and back in with the same e-mail restores the logged-in profile exactly. */
  lemma SignOutThenSignIn(p: UserProfile, freshUserId: string)
    requires p.isLoggedIn
    ensures SignedOut(Some(p)).Some?
    ensures SignedIn(SignedOut(Some(p)), p.email, freshUserId) == p
  {
  }

  /** After signing out nobody is current; after signing in the stored profile is. */
  lemma CurrentUserAfterTransitions(stored: Option<UserProfile>, email: string, freshUserId: string)
    ensures CurrentUser(SignedOut(stored)).None?
    ensures CurrentUser(Some(SignedIn(stored, email, freshUserId))) == Some(SignedIn(stored, email, freshUserId))
  {
  }

  // ---------------------------------------------------------------------------
  // The operations
  // ---------------------------------------------------------------------------

  /** `signUp(email, password, displayName)`: the fresh identifier stands for `generateUserId()`. */
  method SignUp(storage: LocalStorage, email: string, password: string, displayName: Option<string>,
                freshUserId: string) returns (u: AuthUser)
    modifies storage`user
    ensures storage.user.Some?
    ensures var p := storage.user.value;
      && p.userId == freshUserId && p.isLoggedIn && p.email == email && p.displayName == displayName
      && p.interests == [] && p.profileType.None? && p.region.None? && p.explorationMode.None?
      && !p.onboardingComplete && p.newsletter == Newsletter(false, Weekly) && p.aiDepth == StandardDepth
    ensures u == AuthUserOf(storage.user.value)
  {
    var profile := SignedUp(freshUserId, email, displayName);
    storage.user := Some(profile);
    u := AuthUser(freshUserId, email, displayName);
  }

  /** `signIn(email, password)`: any password is accepted. */
  method SignIn(storage: LocalStorage, email: string, password: string, freshUserId: string) returns (u: AuthUser)
    modifies storage`user
    ensures storage.user == Some(SignedIn(old(storage.user), email, freshUserId))
    ensures u == AuthUserOf(storage.user.value)
  {
    var stored := storage.user;
    if stored.Some? {
      var profile := stored.value;
      if profile.email == email {
        storage.user := Some(profile.(isLoggedIn := true));
        return AuthUser(profile.userId, profile.email, profile.displayName);
      }
    }
    u := SignUp(storage, email, password, None, freshUserId);
  }

  /** `signOut()`: clears the logged-in flag and nothing else; a no-op when nothing is stored. */
  method SignOut(storage: LocalStorage)
    modifies storage`user
    ensures storage.user == SignedOut(old(storage.user))
    ensures !IsAuthenticated(storage)
  {
    var stored := storage.user;
    if stored.Some? {
      storage.user := Some(stored.value.(isLoggedIn := false));
    }
  }

  /** `getCurrentUser()`. */
  function GetCurrentUser(storage: LocalStorage): (r: Option<UserProfile>)
    reads storage
    ensures r.Some? <==> storage.user.Some? && storage.user.value.isLoggedIn
    ensures r.Some? ==> r == storage.user
  {
    CurrentUser(storage.user)
  }

  /** `isAuthenticated()`: there is a current user. */
  predicate IsAuthenticated(storage: LocalStorage)
    reads storage
    ensures IsAuthenticated(storage) <==> storage.user.Some? && storage.user.value.isLoggedIn
  {
    GetCurrentUser(storage) != None
  }
}
