/** The navigation bar's avatar: its initials and when it is shown. */
module Navbar {
  import opened Wrappers
  import opened Types
  import opened Seqs
  import opened Text
  import opened Avatar

  /** `initials` for the signed-in user (or none): the fallback is "JD". */
  function NavbarInitials(user: Option<UserProfile>): (r: string)
    ensures |r| <= 2
    ensures user.Some? && Truthy(user.value.displayName) ==>
              var words := NonEmptyWords(Split(user.value.displayName.value, " "));
              && |r| == Min(2, |words|)
              && forall i :: 0 <= i < |r| ==> r[i] == UpperChar(words[i][0])
    ensures user.Some? && !Truthy(user.value.displayName) && user.value.email != "" ==>
              r == [UpperChar(user.value.email[0])]
    ensures user.Some? && !Truthy(user.value.displayName) && user.value.email == "" ==> r == "JD"
    ensures user.None? ==> r == "JD"
  {
    var displayName := if user.Some? then user.value.displayName else None;
    var email := if user.Some? then Some(user.value.email) else None;
    Initials(displayName, email, "JD")
  }

  /** The profile avatar is shown iff the auth state has loaded and somebody is signed in. */
  function ShowsAvatar(isLoading: bool, user: Option<UserProfile>): (b: bool)
    ensures b <==> !isLoading && user.Some?
  {
    !isLoading && user.Some?
  }
}
