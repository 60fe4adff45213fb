/**
 * The browser's localStorage, one field per key the modelled code reads or writes.
 * A key holding JSON is kept as the value the JSON encodes; None is a missing key.
 */
module Storage {
  import opened Wrappers
  import opened Types

  class LocalStorage {
    /** "cultx:user": the single stored profile shared by sign-in and the profile pages. */
    var user: Option<UserProfile>
    /** "cultx:guest_interactions": the guest's request counter. */
    var guestInteractions: Option<int>
    /** "cultx_companion_onboarding_v1_seen". */
    var companionSeen: Option<string>
    /** "cultx_companion_onboarding_v1_dont_show". */
    var companionDontShow: Option<string>

    constructor (user: Option<UserProfile>, guestInteractions: Option<int>,
                 companionSeen: Option<string>, companionDontShow: Option<string>)
      ensures this.user == user && this.guestInteractions == guestInteractions
      ensures this.companionSeen == companionSeen && this.companionDontShow == companionDontShow
    {
      this.user := user;
      this.guestInteractions := guestInteractions;
      this.companionSeen := companionSeen;
      this.companionDontShow := companionDontShow;
    }
  }
}
