/** The seller registration page: six text fields, two tag lists, an
    ordered first-failure-wins validator, submission and the "Register
    Another Farm" reset. */
module Seller {
  import opened Optional
  import opened Text
  import Tags

  datatype SellerProfile = SellerProfile(
    farmName: string,
    ownerName: string,
    email: string,
    phone: string,
    address: string,
    description: string,
    specialties: seq<string>,
    certifications: seq<string>)

  /** The profile the page starts from and returns to on reset. */
  const EmptyProfile := SellerProfile("", "", "", "", "", "", [], [])

  /** The text fields bound to inputs, in the order the validator checks them. */
  datatype Field = FarmName | OwnerName | Email | Phone | Address | Description

  /** Position of a field in the validation order. */
  function Rank(f: Field): nat {
    match f
    case FarmName => 0
    case OwnerName => 1
    case Email => 2
    case Phone => 3
    case Address => 4
    case Description => 5
  }

  function Get(p: SellerProfile, f: Field): string {
    match f
    case FarmName => p.farmName
    case OwnerName => p.ownerName
    case Email => p.email
    case Phone => p.phone
    case Address => p.address
    case Description => p.description
  }

  /** `{...prev, [field]: value}`: exactly `f` takes the new value. */
  function Set(p: SellerProfile, f: Field, v: string): (r: SellerProfile)
    ensures Get(r, f) == v
    ensures forall g :: g != f ==> Get(r, g) == Get(p, g)
    ensures r.specialties == p.specialties && r.certifications == p.certifications
  {
    match f
    case FarmName => p.(farmName := v)
    case OwnerName => p.(ownerName := v)
    case Email => p.(email := v)
    case Phone => p.(phone := v)
    case Address => p.(address := v)
    case Description => p.(description := v)
  }

  /** The message the validator shows when the check on `f` fails. */
  function Message(f: Field): string {
    match f
    case FarmName => "Farm name is required"
    case OwnerName => "Owner name is required"
    case Email => "Valid email is required"
    case Phone => "Phone number is required"
    case Address => "Address is required"
    case Description => "Farm description is required"
  }

  /** The check on one field: something other than white space (what
      `!value.trim()` rejects, by the contract of `Trim`), and for the email
      also `email.includes("@")`, which holds exactly when an `@` occurs
      in it. */
  function Passes(p: SellerProfile, f: Field): (b: bool)
    ensures b <==> !IsBlank(Get(p, f)) && (f == Email ==> '@' in p.email)
  {
    ContainsChar(p.email, '@');
    !IsBlank(Get(p, f)) && (f == Email ==> Contains(p.email, "@"))
  }

  /** The form is complete: all six fields are non-blank and the email
      contains an `@`. */
  function Complete(p: SellerProfile): (b: bool)
    ensures b <==> forall f: Field :: Passes(p, f)
  {
    EachFieldPasses(p);
    && Passes(p, FarmName) && Passes(p, OwnerName) && Passes(p, Email)
    && Passes(p, Phone) && Passes(p, Address) && Passes(p, Description)
  }

  /** The six checks one by one cover every field. */
  lemma EachFieldPasses(p: SellerProfile)
    ensures && Passes(p, FarmName) && Passes(p, OwnerName) && Passes(p, Email)
            && Passes(p, Phone) && Passes(p, Address) && Passes(p, Description)
            ==> forall f: Field :: Passes(p, f)
  {
    forall f: Field | && Passes(p, FarmName) && Passes(p, OwnerName) && Passes(p, Email)
                      && Passes(p, Phone) && Passes(p, Address) && Passes(p, Description)
      ensures Passes(p, f)
    {
      match f
      case FarmName =>
      case OwnerName =>
      case Email =>
      case Phone =>
      case Address =>
      case Description =>
    }
  }

  lemma MessageInjective(f: Field, g: Field)
    ensures Message(f) == Message(g) <==> f == g
  {
    if f != g {
      assert |Message(f)| != |Message(g)|;
    }
  }

  /** `validateForm`: the error of the first failing check in the order
      farm name, owner name, email, phone, address, description; `None`
      when every check passes. */
  function FirstError(p: SellerProfile): (r: Option<string>)
    ensures r.None? <==> Complete(p)
  {
    if Trim(p.farmName) == "" then Some(Message(FarmName))
    else if Trim(p.ownerName) == "" then Some(Message(OwnerName))
    else if Trim(p.email) == "" || !Contains(p.email, "@") then Some(Message(Email))
    else if Trim(p.phone) == "" then Some(Message(Phone))
    else if Trim(p.address) == "" then Some(Message(Address))
    else if Trim(p.description) == "" then Some(Message(Description))
    else None
  }

  /** The first field, in validation order, whose check fails. */
  function FailingField(p: SellerProfile): Option<Field> {
    if !Passes(p, FarmName) then Some(FarmName)
    else if !Passes(p, OwnerName) then Some(OwnerName)
    else if !Passes(p, Email) then Some(Email)
    else if !Passes(p, Phone) then Some(Phone)
    else if !Passes(p, Address) then Some(Address)
    else if !Passes(p, Description) then Some(Description)
    else None
  }

  /** `validateForm`'s chain reports the message of the first failing field. */
  lemma FirstErrorIsFailingField(p: SellerProfile)
    ensures FirstError(p) == match FailingField(p) case None => None case Some(g) => Some(Message(g))
  {
  }

  /** The first failing field is the one whose check fails while every
      check before it passes. */
  lemma FailingFieldIsEarliest(p: SellerProfile, f: Field)
    ensures FailingField(p) == Some(f) <==> !Passes(p, f) && forall g: Field :: Rank(g) < Rank(f) ==> Passes(p, g)
  {
    match f
    case FarmName =>
    case OwnerName =>
      assert Rank(FarmName) < Rank(f);
    case Email =>
      assert Rank(FarmName) < Rank(f) && Rank(OwnerName) < Rank(f);
    case Phone =>
      assert Rank(FarmName) < Rank(f) && Rank(OwnerName) < Rank(f) && Rank(Email) < Rank(f);
    case Address =>
      assert Rank(FarmName) < Rank(f) && Rank(OwnerName) < Rank(f) && Rank(Email) < Rank(f);
      assert Rank(Phone) < Rank(f);
    case Description =>
      assert Rank(FarmName) < Rank(f) && Rank(OwnerName) < Rank(f) && Rank(Email) < Rank(f);
      assert Rank(Phone) < Rank(f) && Rank(Address) < Rank(f);
  }

  /** The error reported is the one of the earliest failing check: every
      check before it passes and its own check fails. */
  lemma FirstErrorIsEarliestFailure(p: SellerProfile, f: Field)
    ensures FirstError(p) == Some(Message(f))
            <==> !Passes(p, f) && forall g: Field :: Rank(g) < Rank(f) ==> Passes(p, g)
  {
    FirstErrorIsFailingField(p);
    FailingFieldIsEarliest(p, f);
    if FailingField(p).Some? {
      MessageInjective(f, FailingField(p).value);
    }
  }

  class SellerPage {
    var isRegistered: bool
    var isLoading: bool
    var error: Option<string>
    var profile: SellerProfile
    var newSpecialty: string
    var newCertification: string

    /** Both tag lists stay well-formed. */
    predicate Valid()
      reads this
    {
      Tags.WellFormed(profile.specialties) && Tags.WellFormed(profile.certifications)
    }

    constructor ()
      ensures Valid()
      ensures !isRegistered && !isLoading && error == None
      ensures profile == EmptyProfile && newSpecialty == "" && newCertification == ""
    {
      isRegistered, isLoading, error := false, false, None;
      profile := EmptyProfile;
      newSpecialty, newCertification := "", "";
    }

    /** `handleInputChange`: sets one field and clears the error. */
    method HandleInputChange(f: Field, value: string)
      requires Valid()
      modifies this
      ensures Valid()
      ensures profile == Set(old(profile), f, value) && error == None
      ensures isRegistered == old(isRegistered) && isLoading == old(isLoading)
      ensures newSpecialty == old(newSpecialty) && newCertification == old(newCertification)
    {
      profile := Set(profile, f, value);
      error := None;
    }

    /** The specialty input box's `onChange`. */
    method SetNewSpecialty(text: string)
      modifies this`newSpecialty
      ensures newSpecialty == text
    {
      newSpecialty := text;
    }

    /** The certification input box's `onChange`. */
    method SetNewCertification(text: string)
      modifies this`newCertification
      ensures newCertification == text
    {
      newCertification := text;
    }

    /** `addSpecialty`: only the specialties and their input box change. */
    method AddSpecialty()
      requires Valid()
      modifies this
      ensures Valid()
      ensures var r := Tags.Add(old(profile.specialties), old(newSpecialty));
              profile == old(profile).(specialties := r.tags) && newSpecialty == r.pending
      ensures isRegistered == old(isRegistered) && isLoading == old(isLoading) && error == old(error)
      ensures newCertification == old(newCertification)
    {
      Tags.AddKeepsWellFormed(profile.specialties, newSpecialty);
      var r := Tags.Add(profile.specialties, newSpecialty);
      profile := profile.(specialties := r.tags);
      newSpecialty := r.pending;
    }

    /** `removeSpecialty`: only the specialties change. */
    method RemoveSpecialty(specialty: string)
      requires Valid()
      modifies this`profile
      ensures Valid()
      ensures profile == old(profile).(specialties := Tags.Remove(old(profile.specialties), specialty))
    {
      Tags.RemoveKeepsWellFormed(profile.specialties, specialty);
      profile := profile.(specialties := Tags.Remove(profile.specialties, specialty));
    }

    /** `addCertification`: only the certifications and their input box change. */
    method AddCertification()
      requires Valid()
      modifies this
      ensures Valid()
      ensures var r := Tags.Add(old(profile.certifications), old(newCertification));
              profile == old(profile).(certifications := r.tags) && newCertification == r.pending
      ensures isRegistered == old(isRegistered) && isLoading == old(isLoading) && error == old(error)
      ensures newSpecialty == old(newSpecialty)
    {
      Tags.AddKeepsWellFormed(profile.certifications, newCertification);
      var r := Tags.Add(profile.certifications, newCertification);
      profile := profile.(certifications := r.tags);
      newCertification := r.pending;
    }

    /** `removeCertification`: only the certifications change. */
    method RemoveCertification(certification: string)
      requires Valid()
      modifies this`profile
      ensures Valid()
      ensures profile == old(profile).(certifications := Tags.Remove(old(profile.certifications), certification))
    {
      Tags.RemoveKeepsWellFormed(profile.certifications, certification);
      profile := profile.(certifications := Tags.Remove(profile.certifications, certification));
    }

    /** `validateForm`: on failure records the first failing check's
        message; on success leaves the error as it was. */
    method ValidateForm() returns (ok: bool)
      modifies this`error
      ensures ok <==> Complete(profile)
      ensures error == if ok then old(error) else FirstError(profile)
    {
      var e := FirstError(profile);
      ok := e.None?;
      if !ok {
        error := e;
      }
    }

    /** `handleSubmit`, the two-second wait taken as one step. Its `try`
        only waits, logs and sets the registered flag; `fails` selects the
        `catch` branch, kept as written although that timer never rejects. */
    method HandleSubmit(fails: bool)
      requires Valid()
      modifies this
      ensures Valid()
      ensures profile == old(profile)
      ensures newSpecialty == old(newSpecialty) && newCertification == old(newCertification)
      ensures !Complete(profile) ==>
                && error == FirstError(profile)
                && isRegistered == old(isRegistered) && isLoading == old(isLoading)
      ensures Complete(profile) ==> !isLoading
      ensures Complete(profile) && !fails ==> isRegistered && error == None
      ensures Complete(profile) && fails ==>
                isRegistered == old(isRegistered) && error == Some("Failed to register. Please try again.")
    {
      var ok := ValidateForm();
      if !ok {
        return;
      }
      isLoading := true;
      error := None;
      if !fails {
        isRegistered := true;
      } else {
        error := Some("Failed to register. Please try again.");
      }
      isLoading := false;
    }

    /** "Register Another Farm": back to the empty profile, registration
        flag cleared; the error and the two input boxes are left alone. */
    method RegisterAnother()
      modifies this`isRegistered, this`profile
      ensures Valid()
      ensures !isRegistered && profile == EmptyProfile
    {
      isRegistered := false;
      profile := EmptyProfile;
    }
  }
}
