/**
 * The settings dialog's profile section: the form seeded from the signed-in
 * user, saving it back into the user record, and cancelling. The theme and
 * preference switches are not modelled.
 */
module Settings {
  import opened Wrappers
  import opened Domain

  /** `formData`: the four editable profile fields. */
  datatype SettingsForm = SettingsForm(name: string, email: string, phone: string, address: string)

  /** The initial `formData`: each field from the user, or "" when absent or without a user. */
  function InitialForm(user: Option<User>): (r: SettingsForm)
    ensures user.None? ==> r == SettingsForm("", "", "", "")
    ensures user.Some? ==>
      && r.name == user.value.name && r.email == user.value.email
      && r.phone == user.value.phone.GetOr("") && r.address == user.value.address.GetOr("")
  {
    match user
    case None => SettingsForm("", "", "", "")
    case Some(u) => SettingsForm(u.name, u.email, u.phone.GetOr(""), u.address.GetOr(""))
  }

  /** `{ ...user, ...formData }`: the four form fields override the user's, everything else is kept. */
  function Merge(u: User, form: SettingsForm): (r: User)
    ensures r.id == u.id && r.userType == u.userType && r.dob == u.dob
    ensures r.name == form.name && r.email == form.email
    ensures r.phone == Some(form.phone) && r.address == Some(form.address)
  {
    u.(name := form.name, email := form.email, phone := Some(form.phone), address := Some(form.address))
  }

  /** Reopening the form on the saved user shows exactly what was saved. */
  lemma InitialFormOfMerge(u: User, form: SettingsForm)
    ensures InitialForm(Some(Merge(u, form))) == form
  {
  }

  /** Saving the same form twice is the same as saving it once. */
  lemma MergeIdempotent(u: User, form: SettingsForm)
    ensures Merge(Merge(u, form), form) == Merge(u, form)
  {
  }

  /**
   * Saving the untouched form gives back the user exactly when the user has a
   * phone and an address: otherwise the absent field becomes the empty string.
   */
  lemma SaveUntouchedIff(u: User)
    ensures Merge(u, InitialForm(Some(u))) == u <==> u.phone.Some? && u.address.Some?
  {
  }

  datatype SettingsField = NameField | EmailField | PhoneField | AddressField

  function GetSetting(form: SettingsForm, field: SettingsField): string {
    match field
    case NameField => form.name
    case EmailField => form.email
    case PhoneField => form.phone
    case AddressField => form.address
  }

  /** An input's change handler: `{ ...formData, [field]: value }`. */
  function UpdateSetting(form: SettingsForm, field: SettingsField, value: string): (r: SettingsForm)
    ensures GetSetting(r, field) == value
    ensures forall other :: other != field ==> GetSetting(r, other) == GetSetting(form, other)
  {
    match field
    case NameField => form.(name := value)
    case EmailField => form.(email := value)
    case PhoneField => form.(phone := value)
    case AddressField => form.(address := value)
  }

  /** The dialog: the shared user record, whether the dialog is open, and the form. */
  class SettingsModal {
    var user: Option<User>
    var open: bool
    var formData: SettingsForm

    /** The form is seeded once, when the dialog is mounted. */
    constructor(initialUser: Option<User>, initiallyOpen: bool)
      ensures user == initialUser && open == initiallyOpen
      ensures formData == InitialForm(initialUser)
    {
      user := initialUser;
      open := initiallyOpen;
      formData := InitialForm(initialUser);
    }

    method Edit(field: SettingsField, value: string)
      modifies this
      ensures formData == UpdateSetting(old(formData), field, value)
      ensures user == old(user) && open == old(open)
    {
      formData := UpdateSetting(formData, field, value);
    }

    /** `handleSave`: merge the form into the user when there is one, then close. */
    method Save()
      modifies this
      ensures old(user).None? ==> user == None
      ensures old(user).Some? ==> user == Some(Merge(old(user).value, old(formData)))
      ensures !open && formData == old(formData)
    {
      if user.Some? {
        user := Some(Merge(user.value, formData));
      }
      open := false;
    }

    /** The cancel button: close without touching the user. */
    method Cancel()
      modifies this
      ensures !open && user == old(user) && formData == old(formData)
    {
      open := false;
    }
  }
}
