/** The profile wizard of the find-a-pet page: the per-step validator with
    its error messages, the step counter, the preference checkboxes, and
    the checks the submit handler repeats before sending the profile. */
module FindPet {
  import opened Seqs
  import opened Text

  /** The wizard's form. */
  datatype Profile = Profile(name: string, email: string, preferences: seq<string>, lifestyle: string,
                             experience: string, additionalInfo: string)

  /** The empty form the page starts with. */
  const EmptyProfile: Profile := Profile("", "", [], "", "", "")

  const NameMessage: string := "Please enter your name"
  const EmailMessage: string := "Please enter a valid email address"
  const PreferenceMessage: string := "Please select at least one pet preference"
  const AnimalTypeMessage: string := "Please select at least one animal type (Dogs, Cats, or Small animals)"
  const LifestyleMessage: string := "Please select your lifestyle"
  const ExperienceMessage: string := "Please select your experience level"

  /** The preferences that name an animal type. */
  const AnimalTypes: seq<string> := ["Dogs", "Cats", "Small animals"]

  /** Some preference names an animal type. */
  predicate HasAnimalType(prefs: seq<string>) {
    exists i | 0 <= i < |prefs| :: prefs[i] in AnimalTypes
  }

  /** What each step requires of the form: a name and an address the e-mail
      pattern matches (step 1), an animal type among the preferences (step
      2), a lifestyle and an experience level (step 3); other steps require
      nothing. */
  predicate StepValid(f: Profile, step: int) {
    (step == 1 ==> Trim(f.name) != "" && LooksLikeEmail(f.email)) &&
    (step == 2 ==> |f.preferences| > 0 && HasAnimalType(f.preferences)) &&
    (step == 3 ==> f.lifestyle != "" && f.experience != "")
  }

  /** `validateStep`, as the error it sets: checks in the page's order, the
      first failing one giving its message. The step passes exactly when it
      is valid, and the trimmed-address test never decides anything beyond
      the pattern. */
  function StepError(f: Profile, step: int): (e: Option<string>)
    ensures e.None? <==> StepValid(f, step)
    ensures step == 1 && Trim(f.name) == "" ==> e == Some(NameMessage)
    ensures step == 1 && Trim(f.name) != "" ==> (e == Some(EmailMessage) <==> !LooksLikeEmail(f.email))
  {
    if step == 1 then
      if Trim(f.name) == "" then Some(NameMessage)
      else if Trim(f.email) == "" || !LooksLikeEmail(f.email) then
        Some(EmailMessage)
      else
        EmailCheckIsPattern(f.email);
        None
    else if step == 2 then
      if |f.preferences| == 0 then Some(PreferenceMessage)
      else if !HasAnimalType(f.preferences) then Some(AnimalTypeMessage)
      else None
    else if step == 3 then
      if f.lifestyle == "" then Some(LifestyleMessage)
      else if f.experience == "" then Some(ExperienceMessage)
      else None
    else None
  }

  /** The address test of step 1 fails exactly when the pattern does not
      match: an address the pattern matches is never blank. */
  lemma EmailCheckIsPattern(email: string)
    ensures (Trim(email) == "" || !LooksLikeEmail(email)) <==> !LooksLikeEmail(email)
  {
    if LooksLikeEmail(email) {
      EmailIsNotBlank(email);
    }
  }

  /** The checks of `handleSubmit` before anything is sent, in order:
      lifestyle, experience, some preference, an animal type. */
  function SubmitError(f: Profile): (e: Option<string>)
    ensures e == Some(LifestyleMessage) <==> f.lifestyle == ""
    ensures e == Some(ExperienceMessage) <==> f.lifestyle != "" && f.experience == ""
  {
    if f.lifestyle == "" then Some(LifestyleMessage)
    else if f.experience == "" then Some(ExperienceMessage)
    else if |f.preferences| == 0 then Some(PreferenceMessage)
    else if !HasAnimalType(f.preferences) then Some(AnimalTypeMessage)
    else None
  }

  /** The preference messages come after the lifestyle and experience
      checks: no preference at all gives the first, preferences without an
      animal type the second. */
  lemma SubmitErrorOrder(f: Profile)
    ensures SubmitError(f) == Some(PreferenceMessage) <==>
              f.lifestyle != "" && f.experience != "" && |f.preferences| == 0
    ensures SubmitError(f) == Some(AnimalTypeMessage) <==>
              f.lifestyle != "" && f.experience != "" && |f.preferences| > 0 && !HasAnimalType(f.preferences)
  {
  }

  /** Submitting is allowed exactly when steps 2 and 3 are valid. */
  lemma SubmitRechecksLaterSteps(f: Profile)
    ensures SubmitError(f).None? <==> StepValid(f, 2) && StepValid(f, 3)
  {
  }

  /** Submitting does not look at the name or the address again. */
  lemma SubmitIgnoresContact(f: Profile, name: string, email: string)
    ensures SubmitError(f.(name := name, email := email)) == SubmitError(f)
  {
  }

  /** The checkbox handler: checking a preference appends it, unchecking
      removes every occurrence and keeps the rest in order. */
  function SetPreference(prefs: seq<string>, pref: string, checked: bool): (r: seq<string>)
    ensures checked ==> |r| == |prefs| + 1 && r[..|prefs|] == prefs && r[|prefs|] == pref
    ensures !checked ==> pref !in r && multiset(r) == multiset(prefs)[pref := 0] && IsSubseq(r, prefs)
  {
    if checked then prefs + [pref] else RemoveAll(prefs, pref)
  }

  /** Checking a preference that was not checked and unchecking it again
      restores the list. */
  lemma CheckThenUncheck(prefs: seq<string>, pref: string)
    requires pref !in prefs
    ensures SetPreference(SetPreference(prefs, pref, true), pref, false) == prefs
  {
    RemoveAllAppended(prefs, pref);
  }

  /** The wizard's state: the current step, the form and the error shown. */
  class FindPetWizard {
    var step: int
    var form: Profile
    var error: Option<string>

    constructor()
      ensures step == 1 && form == EmptyProfile && error == None
    {
      step, form, error := 1, EmptyProfile, None;
    }

    /** `handleNext`: the current step validated; on success one step
        forward, otherwise the step unchanged and the error shown. */
    method HandleNext()
      modifies this`step, this`error
      ensures error == StepError(form, old(step))
      ensures step == if StepValid(form, old(step)) then old(step) + 1 else old(step)
    {
      error := StepError(form, step);
      if error.None? {
        step := step + 1;
      }
    }

    /** `handlePrevious`: one step back. */
    method HandlePrevious()
      modifies this`step
      ensures step == old(step) - 1
    {
      step := step - 1;
    }

    /** A preference checkbox changed. */
    method TogglePreference(pref: string, checked: bool)
      modifies this`form
      ensures form == old(form).(preferences := SetPreference(old(form).preferences, pref, checked))
    {
      form := form.(preferences := SetPreference(form.preferences, pref, checked));
    }

    /** The checks of `handleSubmit`: the first failure is shown and nothing
        is sent; otherwise the error is cleared and the profile is sent. */
    method Submit() returns (send: bool)
      modifies this`error
      ensures error == SubmitError(form)
      ensures send <==> StepValid(form, 2) && StepValid(form, 3)
    {
      error := SubmitError(form);
      SubmitRechecksLaterSteps(form);
      send := error.None?;
    }
  }
}
