/** The user profile record and its enumerations, and the profile tiers the responders distinguish. */
module Types {
  import opened Wrappers

  datatype ProfileType = GeneralAudience | Student | Academic | CulturalProfessional {
    /** The string stored in the profile and handed to the responders. */
    function Name(): string {
      match this
      case GeneralAudience => "General audience"
      case Student => "Student"
      case Academic => "Academic"
      case CulturalProfessional => "Cultural professional"
    }
  }

  datatype Region = North | Central | South | West | Peninsula {
    /** The string used in an article's `regionTags`. */
    function Name(): string {
      match this
      case North => "North"
      case Central => "Central"
      case South => "South"
      case West => "West"
      case Peninsula => "Peninsula"
    }
  }

  datatype ExplorationMode = MyRegion | EntireMexico | Both

  datatype Frequency = Weekly | Biweekly

  datatype Newsletter = Newsletter(enabled: bool, frequency: Frequency)

  datatype AiDepth = StandardDepth | AcademicDepth

  /** `UserProfile`; an absent `displayName` is None. */
  datatype UserProfile = UserProfile(
    userId: string,
    isLoggedIn: bool,
    email: string,
    displayName: Option<string>,
    interests: seq<string>,
    profileType: Option<ProfileType>,
    region: Option<Region>,
    explorationMode: Option<ExplorationMode>,
    onboardingComplete: bool,
    newsletter: Newsletter,
    aiDepth: AiDepth)

  datatype AuthUser = AuthUser(userId: string, email: string, displayName: Option<string>)

  /** `profile?.profileType ?? null`: what the components pass to the responders. */
  function ProfileTypeOf(profile: Option<UserProfile>): Option<string> {
    if profile.Some? && profile.value.profileType.Some? then Some(profile.value.profileType.value.Name())
    else None
  }

  /** `profileType === "Academic" || profileType === "Cultural professional"`. */
  predicate IsAcademicTier(profileType: Option<string>) {
    profileType == Some("Academic") || profileType == Some("Cultural professional")
  }

  /** `profileType === "Student"`. */
  predicate IsStudentTier(profileType: Option<string>) {
    profileType == Some("Student")
  }

  /** Of the four profile types, exactly Academic and Cultural professional are academic-tier. */
  lemma AcademicTierOfProfileTypes(t: ProfileType)
    ensures IsAcademicTier(Some(t.Name())) <==> t == Academic || t == CulturalProfessional
    ensures IsStudentTier(Some(t.Name())) <==> t == Student
  {
    match t
    case GeneralAudience =>
      assert t.Name()[0] == 'G';
    case Student =>
      assert t.Name()[0] == 'S';
    case Academic =>
    case CulturalProfessional =>
      assert t.Name()[0] == 'C';
  }

  /** `GUEST_AI_LIMIT`: answered requests a guest gets before the sign-up nudge. */
  const GuestAiLimit: nat := 3
}
