/** The profile page: a committed `profile` and a working copy
    `editedProfile`. Edits touch only the working copy; save commits it,
    cancel throws it away; export posts the committed profile. */
module Profile {
  import opened Optional
  import opened Text
  import Tags
  import Export

  datatype UserProfile = UserProfile(
    firstName: string,
    lastName: string,
    email: string,
    phone: string,
    address: string,
    city: string,
    state: string,
    zipCode: string,
    preferences: seq<string>,
    memberSince: string,
    totalOrders: int,
    favoriteProducts: seq<string>)

  /** The text fields bound to inputs while editing. */
  datatype Field = FirstName | LastName | Email | Phone | Address | City | State | ZipCode

  function Get(p: UserProfile, f: Field): string {
    match f
    case FirstName => p.firstName
    case LastName => p.lastName
    case Email => p.email
    case Phone => p.phone
    case Address => p.address
    case City => p.city
    case State => p.state
    case ZipCode => p.zipCode
  }

  /** `{...prev, [field]: value}`: exactly `f` takes the new value. */
  function Set(p: UserProfile, f: Field, v: string): (r: UserProfile)
    ensures Get(r, f) == v
    ensures forall g :: g != f ==> Get(r, g) == Get(p, g)
    ensures r.preferences == p.preferences && r.memberSince == p.memberSince
    ensures r.totalOrders == p.totalOrders && r.favoriteProducts == p.favoriteProducts
  {
    match f
    case FirstName => p.(firstName := v)
    case LastName => p.(lastName := v)
    case Email => p.(email := v)
    case Phone => p.(phone := v)
    case Address => p.(address := v)
    case City => p.(city := v)
    case State => p.(state := v)
    case ZipCode => p.(zipCode := v)
  }

  /** `JSON.stringify(profile)` as the export route parses it: every list
      and the order count are present. */
  function ToRecord(p: UserProfile): (r: Export.ProfileRecord)
    ensures r.totalOrders == Some(p.totalOrders)
    ensures r.preferences == Some(p.preferences) && r.favoriteProducts == Some(p.favoriteProducts)
  {
    Export.ProfileRecord(p.firstName, p.lastName, p.email, p.phone, p.address, p.city, p.state,
      p.zipCode, Some(p.preferences), p.memberSince, Some(p.totalOrders), Some(p.favoriteProducts))
  }

  /** The download name the page gives the file it receives: for the same
      clock reading, exactly the name the route gives the file. */
  function DownloadName(p: UserProfile, isoTimestamp: string): (name: string)
    ensures name == Export.Filename(p.firstName, p.lastName, isoTimestamp)
  {
    "profile_" + p.firstName + "_" + p.lastName + "_" + BeforeFirst(isoTimestamp, 'T') + ".xlsx"
  }

  class ProfilePage {
    var isEditing: bool
    var isSaving: bool
    var isExporting: bool
    var error: Option<string>
    var successMessage: Option<string>
    var profile: UserProfile
    var editedProfile: UserProfile
    var newPreference: string

    /** Both copies keep a well-formed preference list. */
    predicate Valid()
      reads this
    {
      Tags.WellFormed(profile.preferences) && Tags.WellFormed(editedProfile.preferences)
    }

    /** The page opens on `initial`, not editing, with the working copy
        equal to it. */
    constructor (initial: UserProfile)
      requires Tags.WellFormed(initial.preferences)
      ensures Valid()
      ensures profile == initial && editedProfile == initial
      ensures !isEditing && !isSaving && !isExporting && error == None && successMessage == None
      ensures newPreference == ""
    {
      isEditing, isSaving, isExporting := false, false, false;
      error, successMessage := None, None;
      profile, editedProfile := initial, initial;
      newPreference := "";
    }

    /** The "Edit Profile" button. */
    method StartEditing()
      modifies this`isEditing
      ensures isEditing
    {
      isEditing := true;
    }

    /** `handleInputChange`: one field of the working copy; the committed
        profile is untouched. */
    method HandleInputChange(f: Field, value: string)
      requires Valid()
      modifies this`editedProfile, this`error
      ensures Valid()
      ensures editedProfile == Set(old(editedProfile), f, value) && error == None
    {
      editedProfile := Set(editedProfile, f, value);
      error := None;
    }

    /** The preference input box's `onChange`. */
    method SetNewPreference(text: string)
      modifies this`newPreference
      ensures newPreference == text
    {
      newPreference := text;
    }

    /** `addPreference`: only the working copy's preferences and the input
        box change. */
    method AddPreference()
      requires Valid()
      modifies this`editedProfile, this`newPreference
      ensures Valid()
      ensures var r := Tags.Add(old(editedProfile.preferences), old(newPreference));
              editedProfile == old(editedProfile).(preferences := r.tags) && newPreference == r.pending
    {
      Tags.AddKeepsWellFormed(editedProfile.preferences, newPreference);
      var r := Tags.Add(editedProfile.preferences, newPreference);
      editedProfile := editedProfile.(preferences := r.tags);
      newPreference := r.pending;
    }

    /** `removePreference`: only the working copy's preferences change. */
    method RemovePreference(preference: string)
      requires Valid()
      modifies this`editedProfile
      ensures Valid()
      ensures editedProfile == old(editedProfile).(preferences := Tags.Remove(old(editedProfile.preferences), preference))
    {
      Tags.RemoveKeepsWellFormed(editedProfile.preferences, preference);
      editedProfile := editedProfile.(preferences := Tags.Remove(editedProfile.preferences, preference));
    }

    /** `handleSave`, the simulated save's wait taken as one step; `fails`
        selects the `catch` branch, kept as written although that timer
        never rejects. On success the working copy is committed. */
    method HandleSave(fails: bool)
      requires Valid()
      modifies this
      ensures Valid()
      ensures !isSaving && editedProfile == old(editedProfile)
      ensures isExporting == old(isExporting) && newPreference == old(newPreference)
      ensures !fails ==>
                && profile == old(editedProfile) && !isEditing && error == None
                && successMessage == Some("Profile updated successfully!")
      ensures fails ==>
                && profile == old(profile) && isEditing == old(isEditing)
                && error == Some("Failed to save profile. Please try again.")
                && successMessage == old(successMessage)
    {
      isSaving := true;
      error := None;
      if !fails {
        profile := editedProfile;
        isEditing := false;
        successMessage := Some("Profile updated successfully!");
      } else {
        error := Some("Failed to save profile. Please try again.");
      }
      isSaving := false;
    }

    /** `handleCancel`: every edit is discarded. */
    method HandleCancel()
      requires Valid()
      modifies this`editedProfile, this`isEditing, this`error
      ensures Valid()
      ensures editedProfile == profile && !isEditing && error == None
    {
      editedProfile := profile;
      isEditing := false;
      error := None;
    }

    /** The timer that hides the success message. */
    method ClearSuccessMessage()
      modifies this`successMessage
      ensures successMessage == None
    {
      successMessage := None;
    }

    /** `handleExportToExcel`: posts the committed profile to the export
        route and, on an ok response, downloads it under a name built from
        the committed profile. `networkFails` stands for the fetch or the
        download throwing; `clientIso` and `serverClock` are the two sides'
        clock readings. */
    method HandleExportToExcel(clientIso: string, serverClock: Export.Clock, networkFails: bool)
      returns (request: Export.ProfileRecord, response: Export.Response, download: Option<string>)
      requires Valid()
      modifies this`isExporting, this`error, this`successMessage
      ensures Valid() && !isExporting
      ensures request == ToRecord(profile)
      ensures response.status == 200 && response.Spreadsheet?
      ensures Export.IsProfileWorkbook(response.book, request, profile.totalOrders, serverClock)
      ensures download.Some? && clientIso == serverClock.isoTimestamp ==> download.value == response.filename
      ensures download == if networkFails then None else Some(DownloadName(profile, clientIso))
      ensures !networkFails ==> error == None && successMessage == Some("Profile exported successfully!")
      ensures networkFails ==>
                error == Some("Failed to export profile. Please try again.") && successMessage == old(successMessage)
    {
      isExporting := true;
      error := None;
      request := ToRecord(profile);
      response := Export.Post(Some(request), serverClock);
      if !networkFails && response.status == 200 {
        download := Some(DownloadName(profile, clientIso));
        successMessage := Some("Profile exported successfully!");
      } else {
        download := None;
        error := Some("Failed to export profile. Please try again.");
      }
      isExporting := false;
    }
  }

  /** Open the page on `initial`, edit one field, then cancel: the edit
      never reaches the committed profile and the working copy is thrown
      away. */
  method EditThenCancel(initial: UserProfile, f: Field, value: string)
    returns (committed: UserProfile, working: UserProfile)
    requires Tags.WellFormed(initial.preferences)
    ensures committed == initial && working == initial
  {
    var page := new ProfilePage(initial);
    page.StartEditing();
    page.HandleInputChange(f, value);
    page.HandleCancel();
    committed, working := page.profile, page.editedProfile;
  }

  /** Open the page on `initial`, edit one field, then save: before the
      save the committed profile is still `initial`; a completed save
      commits exactly that one change, a failed one commits nothing. */
  method EditThenSave(initial: UserProfile, f: Field, value: string, fails: bool)
    returns (beforeSave: UserProfile, committed: UserProfile)
    requires Tags.WellFormed(initial.preferences)
    ensures beforeSave == initial
    ensures committed == if fails then initial else Set(initial, f, value)
  {
    var page := new ProfilePage(initial);
    page.StartEditing();
    page.HandleInputChange(f, value);
    beforeSave := page.profile;
    page.HandleSave(fails);
    committed := page.profile;
  }
}
