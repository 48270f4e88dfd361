/** The administrator's add-pet form: the trait checkboxes, the custom
    trait box, the ordered checks before the form is sent, and the reset
    after the server accepts it. */
module AddPet {
  import opened Seqs
  import opened Text

  /** The form's fields; the age is the text typed into its box. */
  datatype PetForm = PetForm(name: string, petType: string, breed: string, age: string,
                             description: string, imageUrl: string, personality: seq<string>)

  /** The form the page starts with and returns to after a successful
      submission. */
  const EmptyForm: PetForm := PetForm("", "", "", "", "", "", [])

  const NameMessage: string := "Pet name is required"
  const TypeMessage: string := "Pet type is required"
  const AgeMessage: string := "Valid age is required"
  const DescriptionMessage: string := "Description is required"
  const PersonalityMessage: string := "At least one personality trait is required"

  /** `handlePersonalityChange`: a listed trait is removed, every
      occurrence of it, with the rest kept in order; an unlisted one is
      appended. */
  function ToggleTrait(traits: seq<string>, t: string): (r: seq<string>)
    ensures t in traits ==> t !in r && multiset(r) == multiset(traits)[t := 0] && IsSubseq(r, traits)
    ensures t !in traits ==> |r| == |traits| + 1 && r[..|traits|] == traits && r[|traits|] == t
  {
    if t in traits then RemoveAll(traits, t) else traits + [t]
  }

  /** Toggling an unlisted trait twice gives the list back. */
  lemma ToggleTwiceRestores(traits: seq<string>, t: string)
    requires t !in traits
    ensures ToggleTrait(ToggleTrait(traits, t), t) == traits
  {
    RemoveAllAppended(traits, t);
  }

  /** Toggling keeps a list free of duplicates. */
  lemma ToggleKeepsNoDup(traits: seq<string>, t: string)
    ensures NoDup(traits) ==> NoDup(ToggleTrait(traits, t))
  {
    if t !in traits && NoDup(traits) {
      var r := traits + [t];
      forall i, j | 0 <= i < j < |r| ensures r[i] != r[j] {
        if j == |traits| {
          assert r[i] == traits[i];
        } else {
          assert r[i] == traits[i] && r[j] == traits[j];
        }
      }
    }
  }

  /** `addCustomPersonality`, as the new list and the new text of the box:
      the trimmed text is appended and the box cleared when it is not blank
      and not yet listed; otherwise nothing changes. */
  function AddCustom(traits: seq<string>, input: string): (r: (seq<string>, string))
    ensures var t := Trim(input);
            if t != "" && t !in traits then r == (traits + [t], "") else r == (traits, input)
    ensures NoDup(traits) ==> NoDup(r.0)
    ensures forall x :: x in r.0 && x !in traits ==> x != "" && !IsSpace(x[0]) && !IsSpace(x[|x| - 1])
  {
    var t := Trim(input);
    if t != "" && t !in traits then
      ToggleKeepsNoDup(traits, t);
      (traits + [t], "")
    else
      (traits, input)
  }

  /** The form passes every check: a name and a description that are not
      blank, a type, a numeric age, and at least one trait. */
  predicate FormComplete(f: PetForm) {
    Trim(f.name) != "" && f.petType != "" && f.age != "" && IsNumeric(f.age) &&
    Trim(f.description) != "" && |f.personality| > 0
  }

  /** The checks of `handleSubmit`, in order: name, type, age, description,
      traits; the first that fails gives the error, and there is none
      exactly when the form is complete. */
  function SubmitError(f: PetForm): (e: Option<string>)
    ensures e.None? <==> FormComplete(f)
  {
    if Trim(f.name) == "" then Some(NameMessage)
    else if f.petType == "" then Some(TypeMessage)
    else if f.age == "" || !IsNumeric(f.age) then Some(AgeMessage)
    else if Trim(f.description) == "" then Some(DescriptionMessage)
    else if |f.personality| == 0 then Some(PersonalityMessage)
    else None
  }

  /** Each message is shown exactly when every earlier check passed and its
      own check failed. */
  lemma SubmitErrorOrder(f: PetForm)
    ensures SubmitError(f) == Some(NameMessage) <==> Trim(f.name) == ""
    ensures SubmitError(f) == Some(TypeMessage) <==> Trim(f.name) != "" && f.petType == ""
    ensures SubmitError(f) == Some(AgeMessage) <==>
              Trim(f.name) != "" && f.petType != "" && (f.age == "" || !IsNumeric(f.age))
    ensures SubmitError(f) == Some(DescriptionMessage) <==>
              Trim(f.name) != "" && f.petType != "" && f.age != "" && IsNumeric(f.age) && Trim(f.description) == ""
    ensures SubmitError(f) == Some(PersonalityMessage) <==>
              Trim(f.name) != "" && f.petType != "" && f.age != "" && IsNumeric(f.age) &&
              Trim(f.description) != "" && |f.personality| == 0
  {
  }

  /** An age typed as digits passes the age check, and so does one typed
      as nothing but spaces, which `Number` reads as zero. */
  lemma AgeOfDigitsOrSpacesPasses(f: PetForm)
    requires Trim(f.name) != "" && f.petType != ""
    requires f.age != "" && (Digits(f.age) || AllSpace(f.age))
    ensures SubmitError(f) != Some(AgeMessage)
  {
    DigitsAreNumeric(f.age);
    SubmitErrorOrder(f);
  }

  /** An age with no digit in it, such as one written out in letters, is
      refused unless it spells infinity. */
  lemma AgeWithoutDigitRejected(f: PetForm)
    requires Trim(f.name) != "" && f.petType != ""
    requires Trim(f.age) != "" && !HasDigit(Trim(f.age))
    requires Trim(f.age) != "Infinity" && Trim(f.age) != "+Infinity" && Trim(f.age) != "-Infinity"
    ensures SubmitError(f) == Some(AgeMessage)
  {
    if IsNumeric(f.age) {
      NumericHasDigit(f.age);
    }
    SubmitErrorOrder(f);
  }

  /** The page's state: the form, the custom-trait box, the error and the
      success banner. */
  class AddPetPage {
    var form: PetForm
    var personalityInput: string
    var error: Option<string>
    var success: bool

    constructor()
      ensures form == EmptyForm && personalityInput == "" && error == None && !success
    {
      form, personalityInput, error, success := EmptyForm, "", None, false;
    }

    /** A trait checkbox clicked. */
    method HandlePersonalityChange(t: string)
      modifies this`form
      ensures form == old(form).(personality := ToggleTrait(old(form).personality, t))
    {
      form := form.(personality := ToggleTrait(form.personality, t));
    }

    /** The "add" button next to the custom-trait box. */
    method AddCustomPersonality()
      modifies this`form, this`personalityInput
      ensures (form.personality, personalityInput) == AddCustom(old(form).personality, old(personalityInput))
      ensures form == old(form).(personality := form.personality)
    {
      var r := AddCustom(form.personality, personalityInput);
      form := form.(personality := r.0);
      personalityInput := r.1;
    }

    /** `handleSubmit`. The checks run first; a failure is shown and nothing
        is sent. Otherwise the form is sent, and `serverError` is the
        server's answer: `None` when it accepted the pet, in which case the
        banner is shown and the form emptied, or the message to show. */
    method Submit(serverError: Option<string>) returns (sent: bool)
      modifies this`form, this`error, this`success
      ensures sent <==> FormComplete(old(form))
      ensures !sent ==> error == SubmitError(old(form)) && form == old(form) && success == old(success)
      ensures sent && serverError.None? ==> error == None && success && form == EmptyForm
      ensures sent && serverError.Some? ==> error == serverError && form == old(form) && success == old(success)
    {
      var e := SubmitError(form);
      if e.Some? {
        error := e;
        return false;
      }
      error := None;
      sent := true;
      if serverError.None? {
        success := true;
        form := EmptyForm;
      } else {
        error := serverError;
      }
    }
  }
}
