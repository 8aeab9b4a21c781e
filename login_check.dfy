/**
 * The submit checks the two login pages share (`src/pages/Login.tsx` and
 * `src/pages/auth/Login.tsx`): the identifier and then the password must be
 * non-blank once trimmed.
 */
module LoginCheck {
  import opened Text

  datatype CheckResult = MissingIdentifier | MissingPassword | Ready

  function Check(identifier: string, password: string): CheckResult {
    if IsBlank(identifier) then MissingIdentifier
    else if IsBlank(password) then MissingPassword
    else Ready
  }

  /**
   * A submit goes ahead exactly when neither field is blank; a blank
   * identifier is reported first, whatever the password, and a password
   * made only of white space counts as missing.
   */
  lemma CheckMeaning(identifier: string, password: string)
    ensures Check(identifier, password) == Ready <==> !IsBlank(identifier) && !IsBlank(password)
    ensures Check(identifier, password) == MissingIdentifier <==> forall i :: 0 <= i < |identifier| ==> IsSpace(identifier[i])
    ensures Check(identifier, password) == MissingPassword <==>
      !IsBlank(identifier) && forall i :: 0 <= i < |password| ==> IsSpace(password[i])
  {
    BlankIffAllSpace(identifier);
    BlankIffAllSpace(password);
  }
}
