/**
 * The profile page (src/components/Profile.tsx): the edit form's state, the edit
 * toggle and cancel, and saving the form back into the user record. Saving
 * copies only the name and the monthly goal; the form's email and location are
 * kept in the form but never reach the user.
 */
module Profile {
  import opened Types

  /** `formData`. */
  datatype FormData = FormData(name: string, email: string, location: string, monthlyGoal: real)

  /** The form a user starts with: their name and goal, and fixed email and location texts. */
  function InitialForm(u: User): (f: FormData)
    ensures f.name == u.name && f.monthlyGoal == u.monthlyGoal
    ensures f.email == "alex.green@email.com" && f.location == "San Francisco, CA"
  {
    FormData(u.name, "alex.green@email.com", "San Francisco, CA", u.monthlyGoal)
  }

  /** `{ ...user, name: formData.name, monthlyGoal: formData.monthlyGoal }`. */
  function SavedUser(u: User, f: FormData): (r: User)
    ensures r.name == f.name && r.monthlyGoal == f.monthlyGoal
    ensures r.(name := u.name, monthlyGoal := u.monthlyGoal) == u
  {
    u.(name := f.name, monthlyGoal := f.monthlyGoal)
  }

  /** Saving an untouched form changes nothing, and saving twice is saving once. */
  lemma SaveProperties(u: User, f: FormData)
    ensures SavedUser(u, InitialForm(u)) == u
    ensures SavedUser(SavedUser(u, f), f) == SavedUser(u, f)
    ensures SavedUser(u, f).email == u.email && SavedUser(u, f).location == u.location
  {
  }

  /** Saved forms that differ only in email and location give the same user. */
  lemma SaveIgnoresEmailAndLocation(u: User, f: FormData, email: string, location: string)
    ensures SavedUser(u, f.(email := email, location := location)) == SavedUser(u, f)
  {
  }

  datatype ProfileSection = ProfileSectionTab | AchievementsTab | SettingsTab

  /** The component's state together with the user record it writes through `setUser`. */
  class ProfileView {
    var user: User
    var activeSection: ProfileSection
    var editMode: bool
    var formData: FormData

    /** Opened on the profile section, not editing, with the form filled from `u`. */
    constructor(u: User)
      ensures user == u && activeSection == ProfileSectionTab
      ensures !editMode && formData == InitialForm(u)
      ensures EditButtonCaption() == "Edit Profile"
    {
      user := u;
      activeSection := ProfileSectionTab;
      editMode := false;
      formData := InitialForm(u);
    }

    /** The header button: `setEditMode(!editMode)`. */
    method ToggleEditMode()
      modifies this
      ensures editMode == !old(editMode)
      ensures user == old(user) && formData == old(formData) && activeSection == old(activeSection)
      ensures EditButtonCaption() != old(EditButtonCaption())
      ensures old(EditButtonCaption()) == "Edit Profile" ==> EditButtonCaption() == "Cancel"
    {
      editMode := !editMode;
    }

    /** The header button's caption: it offers to cancel while editing and to edit otherwise. */
    function EditButtonCaption(): (caption: string)
      reads this
      ensures caption == "Cancel" <==> editMode
      ensures caption == "Edit Profile" <==> !editMode
    {
      if editMode then "Cancel" else "Edit Profile"
    }

    /** The form's Cancel button: leaves edit mode but keeps the typed values. */
    method Cancel()
      modifies this
      ensures !editMode
      ensures user == old(user) && formData == old(formData) && activeSection == old(activeSection)
      ensures EditButtonCaption() == "Edit Profile"
    {
      editMode := false;
    }

    /** `handleSave`: write the form's name and goal into the user and leave edit mode. */
    method HandleSave()
      modifies this
      ensures user == SavedUser(old(user), old(formData))
      ensures !editMode && formData == old(formData) && activeSection == old(activeSection)
      ensures EditButtonCaption() == "Edit Profile"
    {
      user := SavedUser(user, formData);
      editMode := false;
    }

    /** The name field's `onChange`. */
    method EditName(name: string)
      modifies this
      ensures formData == old(formData).(name := name)
      ensures user == old(user) && editMode == old(editMode) && activeSection == old(activeSection)
    {
      formData := formData.(name := name);
    }

    /** The email field's `onChange`. */
    method EditEmail(email: string)
      modifies this
      ensures formData == old(formData).(email := email)
      ensures user == old(user) && editMode == old(editMode) && activeSection == old(activeSection)
    {
      formData := formData.(email := email);
    }

    /** The location field's `onChange`. */
    method EditLocation(location: string)
      modifies this
      ensures formData == old(formData).(location := location)
      ensures user == old(user) && editMode == old(editMode) && activeSection == old(activeSection)
    {
      formData := formData.(location := location);
    }

    /** The goal field's `onChange`, given the integer `parseInt` read from it. */
    method EditMonthlyGoal(parsed: int)
      modifies this
      ensures formData == old(formData).(monthlyGoal := parsed as real)
      ensures user == old(user) && editMode == old(editMode) && activeSection == old(activeSection)
    {
      formData := formData.(monthlyGoal := parsed as real);
    }

    /** A section tab's `onClick`. */
    method SelectSection(section: ProfileSection)
      modifies this
      ensures activeSection == section
      ensures user == old(user) && editMode == old(editMode) && formData == old(formData)
    {
      activeSection := section;
    }
  }
}
