/** The stored profile: reading it, merging partial updates into it, and completing onboarding. */
module Profile {
  import opened Wrappers
  import opened Types
  import opened Storage

  /**
   * `Partial<UserProfile>`: a field is present (Some) or absent (None).
   * A nullable field can be present with the value null, hence the nested options.
   */
  datatype ProfileUpdate = ProfileUpdate(
    userId: Option<string>,
    isLoggedIn: Option<bool>,
    email: Option<string>,
    displayName: Option<Option<string>>,
    interests: Option<seq<string>>,
    profileType: Option<Option<ProfileType>>,
    region: Option<Option<Region>>,
    explorationMode: Option<Option<ExplorationMode>>,
    onboardingComplete: Option<bool>,
    newsletter: Option<Newsletter>,
    aiDepth: Option<AiDepth>)

  const NoUpdates := ProfileUpdate(None, None, None, None, None, None, None, None, None, None, None)

  /** `{ onboardingComplete: true }`. */
  const OnboardingDone := NoUpdates.(onboardingComplete := Some(true))

  /** `{ ...current, ...updates }`. */
  function Merge(p: UserProfile, u: ProfileUpdate): (r: UserProfile)
    ensures u.userId.Some? ==> r.userId == u.userId.value
    ensures u.userId.None? ==> r.userId == p.userId
    ensures u.isLoggedIn.Some? ==> r.isLoggedIn == u.isLoggedIn.value
    ensures u.isLoggedIn.None? ==> r.isLoggedIn == p.isLoggedIn
    ensures u.email.Some? ==> r.email == u.email.value
    ensures u.email.None? ==> r.email == p.email
    ensures u.displayName.Some? ==> r.displayName == u.displayName.value
    ensures u.displayName.None? ==> r.displayName == p.displayName
    ensures u.interests.Some? ==> r.interests == u.interests.value
    ensures u.interests.None? ==> r.interests == p.interests
    ensures u.profileType.Some? ==> r.profileType == u.profileType.value
    ensures u.profileType.None? ==> r.profileType == p.profileType
    ensures u.region.Some? ==> r.region == u.region.value
    ensures u.region.None? ==> r.region == p.region
    ensures u.explorationMode.Some? ==> r.explorationMode == u.explorationMode.value
    ensures u.explorationMode.None? ==> r.explorationMode == p.explorationMode
    ensures u.onboardingComplete.Some? ==> r.onboardingComplete == u.onboardingComplete.value
    ensures u.onboardingComplete.None? ==> r.onboardingComplete == p.onboardingComplete
    ensures u.newsletter.Some? ==> r.newsletter == u.newsletter.value
    ensures u.newsletter.None? ==> r.newsletter == p.newsletter
    ensures u.aiDepth.Some? ==> r.aiDepth == u.aiDepth.value
    ensures u.aiDepth.None? ==> r.aiDepth == p.aiDepth
  {
    UserProfile(
      u.userId.GetOr(p.userId),
      u.isLoggedIn.GetOr(p.isLoggedIn),
      u.email.GetOr(p.email),
      u.displayName.GetOr(p.displayName),
      u.interests.GetOr(p.interests),
      u.profileType.GetOr(p.profileType),
      u.region.GetOr(p.region),
      u.explorationMode.GetOr(p.explorationMode),
      u.onboardingComplete.GetOr(p.onboardingComplete),
      u.newsletter.GetOr(p.newsletter),
      u.aiDepth.GetOr(p.aiDepth))
  }

  /** `{ ...first, ...second }`: the later update wins field by field. */
  function Then(first: ProfileUpdate, second: ProfileUpdate): ProfileUpdate {
    ProfileUpdate(
      if second.userId.Some? then second.userId else first.userId,
      if second.isLoggedIn.Some? then second.isLoggedIn else first.isLoggedIn,
      if second.email.Some? then second.email else first.email,
      if second.displayName.Some? then second.displayName else first.displayName,
      if second.interests.Some? then second.interests else first.interests,
      if second.profileType.Some? then second.profileType else first.profileType,
      if second.region.Some? then second.region else first.region,
      if second.explorationMode.Some? then second.explorationMode else first.explorationMode,
      if second.onboardingComplete.Some? then second.onboardingComplete else first.onboardingComplete,
      if second.newsletter.Some? then second.newsletter else first.newsletter,
      if second.aiDepth.Some? then second.aiDepth else first.aiDepth)
  }

  /** Applying the same updates twice stores the same profile as applying them once. */
  lemma MergeIdempotent(p: UserProfile, u: ProfileUpdate)
    ensures Merge(Merge(p, u), u) == Merge(p, u)
  {
  }

  /** Two successive updates act as their spread `{ ...first, ...second }`. */
  lemma MergeThen(p: UserProfile, first: ProfileUpdate, second: ProfileUpdate)
    ensures Merge(Merge(p, first), second) == Merge(p, Then(first, second))
  {
  }

  /** An empty update changes nothing. */
  lemma MergeNoUpdates(p: UserProfile)
    ensures Merge(p, NoUpdates) == p
  {
  }

  /** `getProfile()`: the stored profile, or null when the slot is empty. */
  function GetProfile(storage: LocalStorage): (r: Option<UserProfile>)
    reads storage
    ensures r.None? <==> storage.user.None?
    ensures r.Some? ==> r == storage.user
  {
    storage.user
  }

  /** `updateProfile(updates)`: merge into the stored profile and write it back; nothing is written when no profile is stored. */
  method UpdateProfile(storage: LocalStorage, updates: ProfileUpdate) returns (r: Option<UserProfile>)
    modifies storage`user
    ensures old(storage.user).None? ==> r == None
    ensures old(storage.user).Some? ==> r == Some(Merge(old(storage.user).value, updates))
    ensures storage.user == r
  {
    var current := GetProfile(storage);
    if current.None? {
      return None;
    }
    var updated := Merge(current.value, updates);
    storage.user := Some(updated);
    r := Some(updated);
  }

  /** `completeOnboarding(finalUpdates)`: the updates with `onboardingComplete: true` spread last. */
  method CompleteOnboarding(storage: LocalStorage, finalUpdates: ProfileUpdate) returns (r: Option<UserProfile>)
    modifies storage`user
    ensures old(storage.user).None? ==> r == None
    ensures old(storage.user).Some? ==> r == Some(Merge(old(storage.user).value, Then(finalUpdates, OnboardingDone)))
    ensures r.Some? ==> r.value.onboardingComplete
    ensures storage.user == r
  {
    r := UpdateProfile(storage, Then(finalUpdates, OnboardingDone));
  }
}
