/**
 * The settings page (`src/pages/settings/Settings.tsx`): five collapsible
 * sections, and a save that checks an optional password change before it
 * reports success and clears the three password inputs.
 */
module Settings {

  datatype Section = Garage | Admin | Invoice | Notifications | Advanced

  /** `expandedSections`: which sections are open. */
  datatype Expanded = Expanded(garage: bool, admin: bool, invoice: bool, notifications: bool, advanced: bool)

  /** How a save ends: saved, or stopped by the first password check that fails. */
  datatype SaveOutcome = Saved | MissingCurrentPassword | PasswordMismatch | PasswordTooShort

  /** The three password inputs. */
  datatype PasswordField = Current(text: string) | New(text: string) | Confirm(text: string)

  /** The shortest new password a save accepts. */
  const MinPasswordLength: nat := 6

  /** Every section starts open except the advanced one. */
  function InitialExpanded(): Expanded {
    Expanded(true, true, true, true, false)
  }

  function IsExpanded(e: Expanded, s: Section): bool {
    match s
    case Garage => e.garage
    case Admin => e.admin
    case Invoice => e.invoice
    case Notifications => e.notifications
    case Advanced => e.advanced
  }

  /** `toggleSection`: `{ ...prev, [section]: !prev[section] }`. */
  function Toggle(e: Expanded, s: Section): Expanded {
    match s
    case Garage => e.(garage := !e.garage)
    case Admin => e.(admin := !e.admin)
    case Invoice => e.(invoice := !e.invoice)
    case Notifications => e.(notifications := !e.notifications)
    case Advanced => e.(advanced := !e.advanced)
  }

  /** A toggle flips exactly that section, and toggling it twice changes nothing. */
  lemma ToggleEffect(e: Expanded, s: Section)
    ensures IsExpanded(Toggle(e, s), s) == !IsExpanded(e, s)
    ensures forall t :: t != s ==> IsExpanded(Toggle(e, s), t) == IsExpanded(e, t)
    ensures Toggle(Toggle(e, s), s) == e
  {
  }

  /**
   * The checks of `handleSave`. They run only when some password input is
   * filled, and in this order: the current password is required, the new
   * password must equal its confirmation, and it must have at least six
   * characters.
   */
  function PasswordCheck(current: string, newPassword: string, confirm: string): SaveOutcome {
    if current == "" && newPassword == "" && confirm == "" then Saved
    else if current == "" then MissingCurrentPassword
    else if newPassword != confirm then PasswordMismatch
    else if |newPassword| < MinPasswordLength then PasswordTooShort
    else Saved
  }

  /**
   * A save goes through exactly when no password input is filled, or when
   * the current password is given and the new one matches its confirmation
   * and is long enough; a missing current password is reported before any
   * other failure, and a mismatch before a short password.
   */
  lemma PasswordCheckMeaning(current: string, newPassword: string, confirm: string)
    ensures PasswordCheck(current, newPassword, confirm) == Saved <==>
      (current == "" && newPassword == "" && confirm == "")
      || (current != "" && newPassword == confirm && |newPassword| >= MinPasswordLength)
    ensures current == "" && (newPassword != "" || confirm != "") ==>
      PasswordCheck(current, newPassword, confirm) == MissingCurrentPassword
    ensures current != "" && newPassword != confirm ==> PasswordCheck(current, newPassword, confirm) == PasswordMismatch
    ensures PasswordCheck(current, newPassword, confirm) == PasswordTooShort ==> newPassword == confirm && current != ""
  {
  }

  class SettingsPage {
    var expandedSections: Expanded
    var currentPassword: string
    var newPassword: string
    var confirmPassword: string
    var showSuccess: bool

    constructor()
      ensures expandedSections == InitialExpanded()
      ensures currentPassword == "" && newPassword == "" && confirmPassword == "" && !showSuccess
    {
      expandedSections := InitialExpanded();
      currentPassword := "";
      newPassword := "";
      confirmPassword := "";
      showSuccess := false;
    }

    method ToggleSection(s: Section)
      modifies this
      ensures expandedSections == Toggle(old(expandedSections), s)
      ensures IsExpanded(expandedSections, s) == !IsExpanded(old(expandedSections), s)
      ensures forall t :: t != s ==> IsExpanded(expandedSections, t) == IsExpanded(old(expandedSections), t)
      ensures currentPassword == old(currentPassword) && newPassword == old(newPassword)
      ensures confirmPassword == old(confirmPassword) && showSuccess == old(showSuccess)
    {
      ToggleEffect(expandedSections, s);
      expandedSections := Toggle(expandedSections, s);
    }

    method SetPasswordField(field: PasswordField)
      modifies this
      ensures currentPassword == (if field.Current? then field.text else old(currentPassword))
      ensures newPassword == (if field.New? then field.text else old(newPassword))
      ensures confirmPassword == (if field.Confirm? then field.text else old(confirmPassword))
      ensures expandedSections == old(expandedSections) && showSuccess == old(showSuccess)
    {
      match field
      case Current(t) => currentPassword := t;
      case New(t) => newPassword := t;
      case Confirm(t) => confirmPassword := t;
    }

    /**
     * A failed password check changes nothing and keeps the inputs. A
     * successful save shows the success note and clears all three inputs.
     */
    method HandleSave() returns (outcome: SaveOutcome)
      modifies this
      ensures outcome == PasswordCheck(old(currentPassword), old(newPassword), old(confirmPassword))
      ensures outcome != Saved ==>
        currentPassword == old(currentPassword) && newPassword == old(newPassword)
        && confirmPassword == old(confirmPassword) && showSuccess == old(showSuccess)
      ensures outcome == Saved ==> showSuccess && currentPassword == "" && newPassword == "" && confirmPassword == ""
      ensures expandedSections == old(expandedSections)
    {
      if currentPassword != "" || newPassword != "" || confirmPassword != "" {
        if currentPassword == "" {
          return MissingCurrentPassword;
        }
        if newPassword != confirmPassword {
          return PasswordMismatch;
        }
        if |newPassword| < MinPasswordLength {
          return PasswordTooShort;
        }
      }
      showSuccess := true;
      currentPassword := "";
      newPassword := "";
      confirmPassword := "";
      outcome := Saved;
    }

    /** The timer set by a save hides the success note again. */
    method HideSuccess()
      modifies this
      ensures !showSuccess
      ensures expandedSections == old(expandedSections) && currentPassword == old(currentPassword)
      ensures newPassword == old(newPassword) && confirmPassword == old(confirmPassword)
    {
      showSuccess := false;
    }
  }
}
