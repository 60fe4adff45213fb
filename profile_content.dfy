/**
 * The profile page: interest toggling, the one-section-at-a-time editor with its drafts and
 * save handlers, and the avatar initials.
 */
module ProfileContent {
  import opened Wrappers
  import opened Seqs
  import opened Types
  import opened Storage
  import opened Text
  import opened Avatar
  import Profile

  /** `toggleInterest(label)` on the draft list: a present label is removed everywhere, an absent one appended. */
  function ToggleInterest(interests: seq<string>, interest: string): (r: seq<string>)
    ensures interest in interests ==> interest !in r
    ensures interest in interests ==> Subseq(r, interests)
    ensures interest in interests ==> forall x :: x in interests && x != interest ==> x in r
    ensures interest in interests ==> forall x :: multiset(r)[x] == if x != interest then multiset(interests)[x] else 0
    ensures interest !in interests ==> r == interests + [interest]
  {
    if interest in interests then
      var other := (i: string) => i != interest;
      FilterMultiplicity(interests, other);
      Filter(interests, other)
    else interests + [interest]
  }

  /** Toggling an absent label twice gives the list back. */
  lemma ToggleTwiceRestores(interests: seq<string>, interest: string)
    requires interest !in interests
    ensures ToggleInterest(ToggleInterest(interests, interest), interest) == interests
  {
    var keep := (i: string) => i != interest;
    FilterConcat(interests, [interest], keep);
    FilterKeepsAll(interests, keep);
    assert Filter([interest], keep) == [];
  }

  /** The initials on the profile page: the fallback is "?". */
  function ProfileInitials(profile: UserProfile): (r: string)
    ensures |r| <= 2
    ensures Truthy(profile.displayName) ==>
              var words := NonEmptyWords(Split(profile.displayName.value, " "));
              && |r| == Min(2, |words|)
              && forall i :: 0 <= i < |r| ==> r[i] == UpperChar(words[i][0])
    ensures !Truthy(profile.displayName) && profile.email != "" ==> r == [UpperChar(profile.email[0])]
    ensures !Truthy(profile.displayName) && profile.email == "" ==> r == "?"
  {
    Initials(profile.displayName, Some(profile.email), "?")
  }

  /** The page's editable sections. */
  datatype Section = Interests | Identity | Ai | NewsletterSection

  /** The page's state: the profile as the hook holds it, the section in edit and the drafts. */
  class ProfilePage {
    var profile: Option<UserProfile>
    /** The one section being edited, if any. */
    var editing: Option<Section>
    var draftInterests: seq<string>
    var draftProfileType: Option<ProfileType>
    var draftRegion: Option<Region>
    var draftExploration: Option<ExplorationMode>
    var draftAiDepth: AiDepth
    var draftNewsletter: Newsletter

    /** Mounting: the hook reads the stored profile; nothing is in edit and the drafts hold their defaults. */
    constructor (storage: LocalStorage)
      ensures profile == storage.user && editing == None
      ensures draftInterests == [] && draftProfileType == None && draftRegion == None && draftExploration == None
      ensures draftAiDepth == StandardDepth && draftNewsletter == Newsletter(false, Weekly)
    {
      profile := storage.user;
      editing := None;
      draftInterests := [];
      draftProfileType := None;
      draftRegion := None;
      draftExploration := None;
      draftAiDepth := StandardDepth;
      draftNewsletter := Newsletter(false, Weekly);
    }

    /** `startEdit(section)`: without a profile nothing happens; otherwise that section's drafts are copied and it goes into edit. */
    method StartEdit(section: Section)
      modifies this`editing, this`draftInterests, this`draftProfileType, this`draftRegion,
               this`draftExploration, this`draftAiDepth, this`draftNewsletter
      ensures profile.None? ==>
                && editing == old(editing) && draftInterests == old(draftInterests)
                && draftProfileType == old(draftProfileType) && draftRegion == old(draftRegion)
                && draftExploration == old(draftExploration) && draftAiDepth == old(draftAiDepth)
                && draftNewsletter == old(draftNewsletter)
      ensures profile.Some? ==> editing == Some(section)
      ensures profile.Some? ==>
                draftInterests == (if section == Interests then profile.value.interests else old(draftInterests))
      ensures profile.Some? && section == Identity ==>
                && draftProfileType == profile.value.profileType && draftRegion == profile.value.region
                && draftExploration == profile.value.explorationMode
      ensures profile.Some? && section != Identity ==>
                && draftProfileType == old(draftProfileType) && draftRegion == old(draftRegion)
                && draftExploration == old(draftExploration)
      ensures profile.Some? ==>
                draftAiDepth == (if section == Ai then profile.value.aiDepth else old(draftAiDepth))
      ensures profile.Some? ==>
                draftNewsletter == (if section == NewsletterSection then profile.value.newsletter else old(draftNewsletter))
    {
      if profile.None? {
        return;
      }
      var p := profile.value;
      if section == Interests {
        draftInterests := p.interests;
      }
      if section == Identity {
        draftProfileType := p.profileType;
        draftRegion := p.region;
        draftExploration := p.explorationMode;
      }
      if section == Ai {
        draftAiDepth := p.aiDepth;
      }
      if section == NewsletterSection {
        draftNewsletter := p.newsletter;
      }
      editing := Some(section);
    }

    /** `cancelEdit()`: the section leaves edit; the profile and the store are not touched. */
    method CancelEdit()
      modifies this`editing
      ensures editing == None
    {
      editing := None;
    }

    /** A checkbox in the interests editor. */
    method ToggleDraftInterest(interest: string)
      modifies this`draftInterests
      ensures draftInterests == ToggleInterest(old(draftInterests), interest)
    {
      draftInterests := ToggleInterest(draftInterests, interest);
    }

    /** The hook's `update(updates)`: the store is updated and, when that succeeds, the page's copy too. */
    method Update(storage: LocalStorage, updates: Profile.ProfileUpdate)
      modifies storage`user, this`profile
      ensures old(storage.user).None? ==> storage.user == None && profile == old(profile)
      ensures old(storage.user).Some? ==>
                storage.user == Some(Profile.Merge(old(storage.user).value, updates)) && profile == storage.user
    {
      var updated := Profile.UpdateProfile(storage, updates);
      if updated.Some? {
        profile := updated;
      }
    }

    /** `saveInterests()`: only the interests change, then the editor closes. */
    method SaveInterests(storage: LocalStorage)
      modifies storage`user, this`profile, this`editing
      ensures old(storage.user).None? ==> storage.user == None && profile == old(profile)
      ensures old(storage.user).Some? ==>
                storage.user == Some(old(storage.user).value.(interests := draftInterests)) && profile == storage.user
      ensures editing == None
    {
      Update(storage, Profile.NoUpdates.(interests := Some(draftInterests)));
      editing := None;
    }

    /** `saveIdentity()`: only profile type, region and exploration mode change, then the editor closes. */
    method SaveIdentity(storage: LocalStorage)
      modifies storage`user, this`profile, this`editing
      ensures old(storage.user).None? ==> storage.user == None && profile == old(profile)
      ensures old(storage.user).Some? ==>
                storage.user == Some(old(storage.user).value.(profileType := draftProfileType,
                                                              region := draftRegion,
                                                              explorationMode := draftExploration))
                && profile == storage.user
      ensures editing == None
    {
      Update(storage, Profile.NoUpdates.(profileType := Some(draftProfileType), region := Some(draftRegion),
                                         explorationMode := Some(draftExploration)));
      editing := None;
    }

    /** `saveAi()`: only the answer depth changes, then the editor closes. */
    method SaveAi(storage: LocalStorage)
      modifies storage`user, this`profile, this`editing
      ensures old(storage.user).None? ==> storage.user == None && profile == old(profile)
      ensures old(storage.user).Some? ==>
                storage.user == Some(old(storage.user).value.(aiDepth := draftAiDepth)) && profile == storage.user
      ensures editing == None
    {
      Update(storage, Profile.NoUpdates.(aiDepth := Some(draftAiDepth)));
      editing := None;
    }

    /** `saveNewsletter()`: only the newsletter settings change, then the editor closes. */
    method SaveNewsletter(storage: LocalStorage)
      modifies storage`user, this`profile, this`editing
      ensures old(storage.user).None? ==> storage.user == None && profile == old(profile)
      ensures old(storage.user).Some? ==>
                storage.user == Some(old(storage.user).value.(newsletter := draftNewsletter)) && profile == storage.user
      ensures editing == None
    {
      Update(storage, Profile.NoUpdates.(newsletter := Some(draftNewsletter)));
      editing := None;
    }
  }
}
