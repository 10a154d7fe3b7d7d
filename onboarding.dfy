/** The three-step onboarding wizard (OnboardingScreen): name and email, then a
    profession, then the summary that hands the data to the application. */
module Onboarding {
  import opened Model
  import opened Text

  /** The profession card that asks for a free-text profession. */
  const Other: string := "Autre"

  class Wizard {
    var currentStep: int
    var selectedProfession: string
    var customProfession: string
    var name: string
    var email: string

    /** The step is always one of the three. */
    predicate Valid()
      reads this
    {
      1 <= currentStep <= 3
    }

    /** Step 1 may be left once name and email are filled in. */
    predicate IdentityDone()
      reads this
    {
      name != "" && email != ""
    }

    /** Step 2 may be left once a card is chosen and, for the free-text card, the
        trimmed text is not empty (the text is not blank). */
    predicate ProfessionDone()
      reads this
    {
      selectedProfession != "" && (selectedProfession != Other || Trim(customProfession) != [])
    }

    constructor()
      ensures Valid()
      ensures currentStep == 1 && selectedProfession == "" && customProfession == ""
      ensures name == "" && email == ""
    {
      currentStep := 1;
      selectedProfession := "";
      customProfession := "";
      name := "";
      email := "";
    }

    method SetName(n: string)
      requires Valid()
      modifies this
      ensures Valid() && name == n
      ensures currentStep == old(currentStep) && email == old(email)
      ensures selectedProfession == old(selectedProfession) && customProfession == old(customProfession)
    {
      name := n;
    }

    method SetEmail(e: string)
      requires Valid()
      modifies this
      ensures Valid() && email == e
      ensures currentStep == old(currentStep) && name == old(name)
      ensures selectedProfession == old(selectedProfession) && customProfession == old(customProfession)
    {
      email := e;
    }

    method SetCustomProfession(c: string)
      requires Valid()
      modifies this
      ensures Valid() && customProfession == c
      ensures currentStep == old(currentStep) && name == old(name) && email == old(email)
      ensures selectedProfession == old(selectedProfession)
    {
      customProfession := c;
    }

    /** `handleProfessionSelect`: choosing any card but the free-text one clears the
        free text; choosing the free-text card keeps it. */
    method SelectProfession(id: string)
      requires Valid()
      modifies this
      ensures Valid() && selectedProfession == id
      ensures customProfession == (if id != Other then "" else old(customProfession))
      ensures currentStep == old(currentStep) && name == old(name) && email == old(email)
    {
      selectedProfession := id;
      if id != Other {
        customProfession := "";
      }
    }

    /** `handleNext`: 1 -> 2 once the identity is filled in, 2 -> 3 once the
        profession is; any other case leaves the step alone. */
    method Next()
      requires Valid()
      modifies this
      ensures Valid()
      ensures old(currentStep) == 1 && IdentityDone() ==> currentStep == 2
      ensures old(currentStep) == 2 && ProfessionDone() ==> currentStep == 3
      ensures !(old(currentStep) == 1 && IdentityDone()) && !(old(currentStep) == 2 && ProfessionDone()) ==>
        currentStep == old(currentStep)
      ensures name == old(name) && email == old(email)
      ensures selectedProfession == old(selectedProfession) && customProfession == old(customProfession)
    {
      if currentStep == 1 && IdentityDone() {
        currentStep := 2;
      } else if currentStep == 2 && ProfessionDone() {
        currentStep := 3;
      }
    }

    /** `handlePrevious`: one step back, never below the first. */
    method Previous()
      requires Valid()
      modifies this
      ensures Valid()
      ensures currentStep == (if old(currentStep) > 1 then old(currentStep) - 1 else old(currentStep))
      ensures name == old(name) && email == old(email)
      ensures selectedProfession == old(selectedProfession) && customProfession == old(customProfession)
    {
      if currentStep > 1 {
        currentStep := currentStep - 1;
      }
    }

    /** The Next button's disabled expression; on steps 1 and 2 it holds exactly
        when `handleNext` would not advance. */
    function NextDisabled(): (d: bool)
      reads this
      ensures currentStep == 1 ==> (d <==> !IdentityDone())
      ensures currentStep == 2 ==> (d <==> !ProfessionDone())
    {
      (currentStep == 1 && (name == "" || email == ""))
      || (currentStep == 2 && (selectedProfession == ""
                               || (selectedProfession == Other && Trim(customProfession) == [])))
    }

    /** `getFinalProfession`: the free text for the free-text card, else the card. */
    function FinalProfession(): (p: string)
      reads this
      ensures selectedProfession == Other ==> p == customProfession
      ensures selectedProfession != Other ==> p == selectedProfession
    {
      if selectedProfession == Other then customProfession else selectedProfession
    }

    /** `handleContinue`: the data handed to `onContinue`. */
    method Continue() returns (data: OnboardingData)
      ensures data == OnboardingData(name, email, FinalProfession())
    {
      data := OnboardingData(name, email, FinalProfession());
    }
  }
}
