/** The personalised home feed: a hero article and three sections cut from the catalogue. */
module Personalization {
  import opened Wrappers
  import opened Seqs
  import opened Types
  import opened Articles

  /** `PersonalizedFeed`; the hero is absent when the catalogue is empty. */
  datatype PersonalizedFeed = PersonalizedFeed(
    hero: Option<Article>,
    forYou: seq<Article>,
    inRegion: seq<Article>,
    discover: seq<Article>)

  /** `a.tags.some(tag => interests.includes(tag))`. */
  predicate SharesInterest(a: Article, interests: seq<string>) {
    exists t | t in a.tags :: t in interests
  }

  /** The articles matching the profile's interests. */
  function ByInterests(all: seq<Article>, interests: seq<string>): (r: seq<Article>)
    ensures Subseq(r, all)
    ensures forall i :: 0 <= i < |r| ==> SharesInterest(r[i], interests)
    ensures forall i :: 0 <= i < |all| && SharesInterest(all[i], interests) ==> all[i] in r
    ensures forall a :: multiset(r)[a] == if SharesInterest(a, interests) then multiset(all)[a] else 0
  {
    var matches := (a: Article) => SharesInterest(a, interests);
    FilterMultiplicity(all, matches);
    Filter(all, matches)
  }

  /** `forYouPool`: the interest matches when there are at least two, otherwise the whole catalogue. */
  function ForYouPool(all: seq<Article>, interests: seq<string>): (r: seq<Article>)
    ensures Subseq(r, all)
    ensures r == [] <==> all == []
    ensures |ByInterests(all, interests)| >= 2 ==> r == ByInterests(all, interests)
    ensures |ByInterests(all, interests)| < 2 ==> r == all
  {
    var byInterests := ByInterests(all, interests);
    if |byInterests| >= 2 then byInterests else (SubseqRefl(all); all)
  }

  /** `byRegion`: the articles tagged with the profile's region, none when no region is set. */
  function ByRegion(all: seq<Article>, region: Option<Region>): (r: seq<Article>)
    ensures Subseq(r, all)
    ensures forall i :: 0 <= i < |r| ==> region.Some? && region.value.Name() in r[i].regionTags
    ensures region.None? ==> r == []
    ensures region.Some? ==> forall i :: 0 <= i < |all| && region.value.Name() in all[i].regionTags ==> all[i] in r
    ensures region.Some? ==>
              forall a :: multiset(r)[a] == if region.value.Name() in a.regionTags then multiset(all)[a] else 0
  {
    if region.Some? then
      var tagged := (a: Article) => InRegion(a, region.value.Name());
      FilterMultiplicity(all, tagged);
      Filter(all, tagged)
    else []
  }

  /** The ids already featured in the hero, "for you" and "in your region" sections. */
  function UsedIds(hero: Article, forYou: seq<Article>, inRegion: seq<Article>): (ids: set<string>)
    ensures hero.id in ids
    ensures forall i :: 0 <= i < |forYou| ==> forYou[i].id in ids
    ensures forall i :: 0 <= i < |inRegion| ==> inRegion[i].id in ids
    ensures forall id :: id in ids ==>
              id == hero.id
              || (exists i :: 0 <= i < |forYou| && forYou[i].id == id)
              || (exists i :: 0 <= i < |inRegion| && inRegion[i].id == id)
  {
    set a | a in [hero] + forYou + inRegion :: a.id
  }

  /** The catalogue without the featured ids, in catalogue order. */
  function Unfeatured(all: seq<Article>, used: set<string>): (r: seq<Article>)
    ensures Subseq(r, all)
    ensures forall i :: 0 <= i < |r| ==> r[i].id !in used
    ensures forall i :: 0 <= i < |all| && all[i].id !in used ==> all[i] in r
    ensures forall a :: multiset(r)[a] == if a.id !in used then multiset(all)[a] else 0
  {
    var notUsed := (a: Article) => a.id !in used;
    FilterMultiplicity(all, notUsed);
    Filter(all, notUsed)
  }

  /**
   * `getPersonalizedFeed(profile)` over the catalogue `all`. None is the TypeError the code
   * raises when it reads the id of an undefined hero: an onboarded profile and an empty catalogue.
   */
  function GetPersonalizedFeed(all: seq<Article>, profile: Option<UserProfile>): (r: Option<PersonalizedFeed>)
    ensures r.None? <==> profile.Some? && profile.value.onboardingComplete && all == []
  {
    if profile.None? || !profile.value.onboardingComplete then
      Some(PersonalizedFeed(if |all| > 0 then Some(all[0]) else None, Slice(all, 1, 5), Slice(all, 5, 9), Slice(all, 9, 12)))
    else
      var p := profile.value;
      var pool := ForYouPool(all, p.interests);
      if |pool| == 0 then None
      else
        var hero := pool[0];
        var forYou := Slice(pool, 1, 5);
        var byRegion := ByRegion(all, p.region);
        var inRegion := if |byRegion| >= 2 then Slice(byRegion, 0, 4) else Slice(all, 4, 8);
        var used := UsedIds(hero, forYou, inRegion);
        var discover := Slice(Unfeatured(all, used), 0, 4);
        Some(PersonalizedFeed(Some(hero), forYou, inRegion, discover))
  }

  // ---------------------------------------------------------------------------
  // What the feed promises
  // ---------------------------------------------------------------------------

  /** A guest, or a profile still onboarding, gets the catalogue's fixed slices. */
  lemma GuestFeed(all: seq<Article>, profile: Option<UserProfile>)
    requires profile.None? || !profile.value.onboardingComplete
    ensures var f := GetPersonalizedFeed(all, profile).value;
      && (|all| > 0 ==> f.hero == Some(all[0]))
      && f.forYou == Slice(all, 1, 5)
      && f.inRegion == Slice(all, 5, 9)
      && f.discover == Slice(all, 9, 12)
      && |f.forYou| <= 4 && |f.inRegion| <= 4 && |f.discover| <= 3
  {
  }

  /** Every section is an order-preserving subsequence of the catalogue, and the hero is in it. */
  lemma SectionsAreSubsequences(all: seq<Article>, profile: Option<UserProfile>)
    requires GetPersonalizedFeed(all, profile).Some?
    ensures var f := GetPersonalizedFeed(all, profile).value;
      && (f.hero.Some? ==> f.hero.value in all)
      && Subseq(f.forYou, all) && Subseq(f.inRegion, all) && Subseq(f.discover, all)
  {
    var f := GetPersonalizedFeed(all, profile).value;
    if profile.None? || !profile.value.onboardingComplete {
      SubseqOfSlice(all, 1, 5);
      SubseqOfSlice(all, 5, 9);
      SubseqOfSlice(all, 9, 12);
    } else {
      var p := profile.value;
      var pool := ForYouPool(all, p.interests);
      SubseqMembers(pool, all);
      SubseqOfSlice(pool, 1, 5);
      SubseqTrans(f.forYou, pool, all);
      var byRegion := ByRegion(all, p.region);
      if |byRegion| >= 2 {
        SubseqOfSlice(byRegion, 0, 4);
        SubseqTrans(f.inRegion, byRegion, all);
      } else {
        SubseqOfSlice(all, 4, 8);
      }
      var used := UsedIds(pool[0], f.forYou, f.inRegion);
      var unused := Unfeatured(all, used);
      SubseqOfSlice(unused, 0, 4);
      SubseqTrans(f.discover, unused, all);
    }
  }

  /** For an onboarded profile: at most four articles per section, and "for you" follows the interests when two or more match. */
  lemma OnboardedFeedShape(all: seq<Article>, p: UserProfile)
    requires p.onboardingComplete && all != []
    ensures var f := GetPersonalizedFeed(all, Some(p)).value;
      && f.hero == Some(ForYouPool(all, p.interests)[0])
      && f.forYou == Slice(ForYouPool(all, p.interests), 1, 5)
      && (|ByRegion(all, p.region)| >= 2 ==> f.inRegion == Slice(ByRegion(all, p.region), 0, 4))
      && f.discover == Slice(Unfeatured(all, UsedIds(f.hero.value, f.forYou, f.inRegion)), 0, 4)
      && |f.forYou| <= 4 && |f.inRegion| <= 4 && |f.discover| <= 4
      && (|ByInterests(all, p.interests)| >= 2 ==>
            SharesInterest(f.hero.value, p.interests)
            && forall i :: 0 <= i < |f.forYou| ==> SharesInterest(f.forYou[i], p.interests))
      && (|ByRegion(all, p.region)| >= 2 ==>
            forall i :: 0 <= i < |f.inRegion| ==> p.region.value.Name() in f.inRegion[i].regionTags)
      && (|ByRegion(all, p.region)| < 2 ==> f.inRegion == Slice(all, 4, 8))
  {
  }

  /** "Discover" never repeats an article already featured: its ids avoid the hero, "for you" and "in your region". */
  lemma DiscoverIsDisjoint(all: seq<Article>, p: UserProfile)
    requires p.onboardingComplete && all != []
    ensures var f := GetPersonalizedFeed(all, Some(p)).value;
      forall i :: 0 <= i < |f.discover| ==>
        && f.discover[i].id != f.hero.value.id
        && (forall j :: 0 <= j < |f.forYou| ==> f.discover[i].id != f.forYou[j].id)
        && (forall j :: 0 <= j < |f.inRegion| ==> f.discover[i].id != f.inRegion[j].id)
  {
    var f := GetPersonalizedFeed(all, Some(p)).value;
    var used := UsedIds(f.hero.value, f.forYou, f.inRegion);
    var unused := Unfeatured(all, used);
    assert f.discover == Slice(unused, 0, 4);
    assert forall i :: 0 <= i < |f.discover| ==> f.discover[i].id !in used;
  }
}
