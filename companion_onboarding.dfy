/**
 * The companion onboarding modal: five feature steps walked with Back/Next, tabs and dots, a
 * "don't show again" box written on close, and the query that decides whether to show it.
 */
module CompanionOnboarding {
  import opened Wrappers
  import opened Storage

  /** The ids of `STEPS`, in order. */
  const StepIds: seq<string> := ["chat", "summary", "podcast", "highlight", "account"]

  /** `isLast`. */
  predicate IsLast(activeStep: nat) {
    activeStep == |StepIds| - 1
  }

  /** What the primary button does on a step. */
  datatype PrimaryAction = Next | Close | CloseAndSignUp

  /** The primary button: sign-up on a last step with id "account", plain close on another last step, else Next. */
  function PrimaryActionAt(activeStep: nat): (r: PrimaryAction)
    requires activeStep < |StepIds|
    ensures r == CloseAndSignUp <==> IsLast(activeStep) && StepIds[activeStep] == "account"
    ensures r == Next <==> !IsLast(activeStep)
  {
    if IsLast(activeStep) && StepIds[activeStep] == "account" then CloseAndSignUp
    else if IsLast(activeStep) then Close
    else Next
  }

  /** The primary button's label. */
  function PrimaryLabel(action: PrimaryAction): string {
    match action
    case CloseAndSignUp => "Create a free account"
    case Close => "Done"
    case Next => "Next"
  }

  /** With these steps the last one is "account", so the primary button ends the tour at sign-up and "Done" never shows. */
  lemma PrimaryOnEachStep(activeStep: nat)
    requires activeStep < |StepIds|
    ensures activeStep < 4 ==> PrimaryActionAt(activeStep) == Next
    ensures activeStep == 4 ==> PrimaryActionAt(activeStep) == CloseAndSignUp
    ensures PrimaryLabel(PrimaryActionAt(activeStep)) != "Done"
  {
  }

  /** Whether the modal should be offered, given the dont-show key: yes unless it holds "true". */
  function ShouldShow(dontShowFlag: Option<string>): (b: bool)
    ensures b <==> !(dontShowFlag.Some? && dontShowFlag.value == "true")
  {
    dontShowFlag != Some("true")
  }

  /** `shouldShowCompanionOnboarding()`. */
  function ShouldShowCompanionOnboarding(storage: LocalStorage): (b: bool)
    reads storage
    ensures b <==> storage.companionDontShow != Some("true")
  {
    ShouldShow(storage.companionDontShow)
  }

  /** The dont-show key after closing: "true" when the box is ticked, otherwise as it was. */
  function FlagAfterClose(dontShow: bool, stored: Option<string>): (r: Option<string>)
    ensures dontShow ==> !ShouldShow(r)
    ensures !dontShow ==> r == stored
  {
    if dontShow then Some("true") else stored
  }

  class CompanionModal {
    var activeStep: nat
    var dontShow: bool
    /** `onClose` has been called. */
    var closed: bool
    /** Where the page was sent, if anywhere. */
    var location: Option<string>

    /** The active step is one of `STEPS`. */
    ghost predicate Valid()
      reads this
    {
      activeStep < |StepIds|
    }

    constructor ()
      ensures activeStep == 0 && !dontShow && !closed && location == None
      ensures Valid()
    {
      activeStep := 0;
      dontShow := false;
      closed := false;
      location := None;
    }

    /** The mount effect: the modal records that it has been seen. */
    method MarkSeen(storage: LocalStorage)
      modifies storage`companionSeen
      ensures storage.companionSeen == Some("true")
    {
      storage.companionSeen := Some("true");
    }

    /** The Back button is rendered only past the first step. */
    predicate BackOffered()
      reads this
    {
      activeStep > 0
    }

    /** Back: one step earlier. */
    method Back()
      requires Valid() && BackOffered()
      modifies this`activeStep
      ensures activeStep == old(activeStep) - 1
      ensures Valid()
    {
      activeStep := activeStep - 1;
    }

    /** A tab or a dot: the step it stands for. */
    method SelectStep(i: nat)
      requires i < |StepIds|
      modifies this`activeStep
      ensures activeStep == i && Valid()
    {
      activeStep := i;
    }

    /** The "don't show again" box. */
    method SetDontShow(checked: bool)
      modifies this`dontShow
      ensures dontShow == checked
    {
      dontShow := checked;
    }

    /** `handleClose()`: the dont-show key is written only when the box is ticked; then the modal closes. */
    method HandleClose(storage: LocalStorage)
      modifies storage`companionDontShow, this`closed
      ensures storage.companionDontShow == FlagAfterClose(dontShow, old(storage.companionDontShow))
      ensures closed
    {
      if dontShow {
        storage.companionDontShow := Some("true");
      }
      closed := true;
    }

    /** The primary button: Next advances by one, the last step closes (and goes to /signup on "account"). */
    method Primary(storage: LocalStorage)
      requires Valid()
      modifies this`activeStep, this`closed, this`location, storage`companionDontShow
      ensures Valid()
      ensures PrimaryActionAt(old(activeStep)) == Next ==>
                activeStep == old(activeStep) + 1 && closed == old(closed) && location == old(location)
                && storage.companionDontShow == old(storage.companionDontShow)
      ensures PrimaryActionAt(old(activeStep)) != Next ==>
                && activeStep == old(activeStep) && closed
                && storage.companionDontShow == FlagAfterClose(dontShow, old(storage.companionDontShow))
      ensures PrimaryActionAt(old(activeStep)) == CloseAndSignUp ==> location == Some("/signup")
      ensures PrimaryActionAt(old(activeStep)) == Close ==> location == old(location)
    {
      var action := PrimaryActionAt(activeStep);
      if action == Next {
        activeStep := activeStep + 1;
      } else {
        HandleClose(storage);
        if action == CloseAndSignUp {
          location := Some("/signup");
        }
      }
    }
  }
}
