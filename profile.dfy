/**
 * The account page (`src/pages/profile/Profile.tsx`): the account form is
 * edited with a backup taken on entering edit mode, so that cancelling
 * restores it, and a separate password change is checked for length and
 * confirmation.
 */
module Profile {
  import opened Wrappers

  datatype ProfileForm = ProfileForm(
    username: string,
    name: string,
    role: string,
    phone: string,
    newPassword: string,
    confirmPassword: string)

  /** The inputs of the page: three account fields and the two password fields. */
  datatype ProfileField = Username(text: string) | Name(text: string) | Phone(text: string)
                        | NewPassword(text: string) | ConfirmPassword(text: string)

  /** How a password change ends. */
  datatype PasswordOutcome = PasswordChanged | TooShort | Mismatch

  /** The shortest new password a change accepts. */
  const MinPasswordLength: nat := 8

  function InitialForm(): ProfileForm {
    ProfileForm("admin_user", "Sok Dara", "អ្នកគ្រប់គ្រង", "012 345 678", "", "")
  }

  function ApplyField(form: ProfileForm, field: ProfileField): ProfileForm {
    match field
    case Username(t) => form.(username := t)
    case Name(t) => form.(name := t)
    case Phone(t) => form.(phone := t)
    case NewPassword(t) => form.(newPassword := t)
    case ConfirmPassword(t) => form.(confirmPassword := t)
  }

  /** The checks of `handleSavePassword`, the length first and then the confirmation. */
  function PasswordCheck(newPassword: string, confirm: string): PasswordOutcome {
    if |newPassword| < MinPasswordLength then TooShort
    else if newPassword != confirm then Mismatch
    else PasswordChanged
  }

  /**
   * A change goes through exactly when the new password has at least eight
   * characters and equals its confirmation; a short password is reported as
   * such whether or not the confirmation matches.
   */
  lemma PasswordCheckMeaning(newPassword: string, confirm: string)
    ensures PasswordCheck(newPassword, confirm) == PasswordChanged <==>
      |newPassword| >= MinPasswordLength && newPassword == confirm
    ensures PasswordCheck(newPassword, confirm) == TooShort <==> |newPassword| < MinPasswordLength
    ensures PasswordCheck(newPassword, confirm) == Mismatch ==> newPassword != confirm
  {
  }

  class ProfilePage {
    var form: ProfileForm
    var isEditing: bool
    var backup: Option<ProfileForm>

    /** A backup is held exactly while editing. */
    ghost predicate Valid()
      reads this
    {
      isEditing <==> backup.Some?
    }

    constructor()
      ensures Valid()
      ensures form == InitialForm() && !isEditing && backup == None
    {
      form := InitialForm();
      isEditing := false;
      backup := None;
    }

    /** Every input edits its field of the form and nothing else. */
    method SetField(field: ProfileField)
      requires Valid()
      modifies this
      ensures Valid()
      ensures form == ApplyField(old(form), field)
      ensures isEditing == old(isEditing) && backup == old(backup)
    {
      form := ApplyField(form, field);
    }

    /**
     * `handleEditToggle`: entering edit mode backs up the whole form; leaving
     * it cancels, putting the backup back.
     */
    method HandleEditToggle()
      requires Valid()
      modifies this
      ensures Valid()
      ensures !old(isEditing) ==> isEditing && backup == Some(old(form)) && form == old(form)
      ensures old(isEditing) ==> !isEditing && backup == None && form == old(backup).value
    {
      if !isEditing {
        backup := Some(form);
        isEditing := true;
        return;
      }
      if backup.Some? {
        form := backup.value;
      }
      isEditing := false;
      backup := None;
    }

    /** The cancel button of the edit view: the backup, if any, becomes the form. */
    method CancelEdit()
      requires Valid()
      modifies this
      ensures Valid()
      ensures form == if old(backup).Some? then old(backup).value else old(form)
      ensures !isEditing && backup == None
    {
      if backup.Some? {
        form := backup.value;
      }
      isEditing := false;
      backup := None;
    }

    /** `handleSaveAccount`: the edited form is kept and the backup dropped. */
    method HandleSaveAccount()
      requires Valid()
      modifies this
      ensures Valid()
      ensures form == old(form) && !isEditing && backup == None
    {
      isEditing := false;
      backup := None;
    }

    /**
     * A rejected change keeps everything; an accepted one clears the two
     * password fields and nothing else of the form.
     */
    method HandleSavePassword() returns (outcome: PasswordOutcome)
      requires Valid()
      modifies this
      ensures Valid()
      ensures outcome == PasswordCheck(old(form).newPassword, old(form).confirmPassword)
      ensures outcome != PasswordChanged ==> form == old(form)
      ensures outcome == PasswordChanged ==> form == old(form).(newPassword := "", confirmPassword := "")
      ensures isEditing == old(isEditing) && backup == old(backup)
    {
      var np := form.newPassword;
      var cp := form.confirmPassword;
      if |np| < MinPasswordLength {
        return TooShort;
      }
      if np != cp {
        return Mismatch;
      }
      form := form.(newPassword := "", confirmPassword := "");
      outcome := PasswordChanged;
    }
  }
}
