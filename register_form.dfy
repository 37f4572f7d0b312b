/** registerSchema of useRegisterForm (apps/web/src/hooks/useRegisterForm.ts). zod's email
    syntax check is a parameter. */
module RegisterForm {
  import opened Common
  import opened FormSchema

  datatype RegisterFormData = RegisterFormData(name: string, email: string, password: string, confirmPassword: string)

  predicate ValidRegisterForm(d: RegisterFormData, isEmail: string -> bool) {
    && |d.name| >= 2
    && isEmail(d.email)
    && |d.password| >= 8
    && |d.confirmPassword| >= 8
    && d.password == d.confirmPassword
  }

  /** The field checks, then the object refinement; with every field a string the object is
      never aborted, so the refinement runs even when a field check failed. */
  function RegisterSchemaIssues(d: RegisterFormData, isEmail: string -> bool): (r: seq<FieldError>)
    ensures r == [] <==> ValidRegisterForm(d, isEmail)
    ensures d.password != d.confirmPassword ==> r[|r| - 1] == FieldError("confirmPassword", "Passwords do not match")
  {
    Check(|d.name| >= 2, "name", "Name must be at least 2 characters")
    + Check(isEmail(d.email), "email", "Invalid email address")
    + Check(|d.password| >= 8, "password", "Password must be at least 8 characters")
    + Check(|d.confirmPassword| >= 8, "confirmPassword", "Password must be at least 8 characters")
    + Check(d.password == d.confirmPassword, "confirmPassword", "Passwords do not match")
  }

  function ResolveRegisterForm(d: RegisterFormData, isEmail: string -> bool): Resolution<RegisterFormData> {
    Resolve(d, RegisterSchemaIssues(d, isEmail))
  }

  /** Equal passwords of at least eight characters pass the refinement: with a valid name and
      email the form resolves. */
  lemma MatchingPasswordsResolve(d: RegisterFormData, isEmail: string -> bool)
    requires |d.name| >= 2 && isEmail(d.email)
    requires |d.password| >= 8 && d.password == d.confirmPassword
    ensures ResolveRegisterForm(d, isEmail) == Resolved(d)
  {
  }

  /** Differing passwords always reject, with the mismatch reported on confirmPassword, even
      when every field is otherwise valid. */
  lemma MismatchRejected(d: RegisterFormData, isEmail: string -> bool)
    requires d.password != d.confirmPassword
    ensures ResolveRegisterForm(d, isEmail).Rejected?
    ensures FieldError("confirmPassword", "Passwords do not match") in ResolveRegisterForm(d, isEmail).issues
  {
    var r := RegisterSchemaIssues(d, isEmail);
    assert r[|r| - 1] in r;
  }
}
