/** The email step of onboarding: its initial value, change handler, `handleNext` guard and the
    disabled state of its Continue button (src/components/EmailInput.jsx). */
module EmailInput {
  import opened Wrappers
  import opened Text
  import opened Onboarding

  /** `formData.email || user?.email || ''`: the stored email when non-empty, else the account's. */
  function InitialEmail(formEmail: string, user: Option<User>): (r: string)
    ensures formEmail != "" ==> r == formEmail
    ensures formEmail == "" && user.Some? && user.value.email.Some? ==> r == user.value.email.value
    ensures formEmail == "" && (user.None? || user.value.email.None?) ==> r == ""
  {
    if formEmail != "" then formEmail
    else if user.Some? && user.value.email.Some? && user.value.email.value != "" then user.value.email.value
    else ""
  }

  /** `validateEmail`. */
  function ValidateEmail(email: string): (r: bool)
    ensures r <==> MatchesEmailPattern(email)
  {
    ValidEmail(email)
  }

  /** The `isValid` flag a change leaves: the pattern matches, or the field is empty. */
  function ValidityAfterChange(value: string): (r: bool)
    ensures r <==> value == "" || MatchesEmailPattern(value)
  {
    ValidateEmail(value) || value == ""
  }

  /** `handleNext` calls `onNext` only for a non-empty email matching the pattern. */
  function NextFires(email: string): (r: bool)
    ensures r <==> email != "" && MatchesEmailPattern(email)
  {
    email != "" && ValidateEmail(email)
  }

  /** `disabled={!email || !isValid}`. */
  predicate ButtonDisabled(email: string, isValid: bool) {
    email == "" || !isValid
  }

  /** Once the field has been edited, Continue is disabled exactly when `handleNext` would do nothing. */
  lemma DisabledAfterChangeIff(value: string)
    ensures ButtonDisabled(value, ValidityAfterChange(value)) <==> !NextFires(value)
  {
  }

  /** Before any edit `isValid` starts out true, so a prefilled email without `@` leaves Continue
      enabled while `handleNext` does nothing. */
  lemma PrefilledInvalidEmailEnabled()
    ensures !ButtonDisabled("abc", true)
    ensures !NextFires("abc")
  {
    assert "abc"[0] == 'a' && "abc"[1] == 'b' && "abc"[2] == 'c';
    NoAtMeansNoMatch("abc");
  }

  /** The step's local state, bound to the onboarding store. */
  class EmailStep {
    var email: string
    var isValid: bool
    const store: OnboardingStore

    constructor(store: OnboardingStore)
      ensures this.store == store
      ensures email == InitialEmail(store.formData.email, store.user) && isValid
    {
      this.store := store;
      email := InitialEmail(store.formData.email, store.user);
      isValid := true;
    }

    /** `handleEmailChange`: the local and the stored email both take the typed value. */
    method HandleEmailChange(value: string)
      modifies this, store
      ensures email == value && store.formData.email == value
      ensures store.formData == Update(old(store.formData), Email, value)
      ensures isValid == ValidityAfterChange(value)
      ensures store.currentStep == old(store.currentStep) && store.user == old(store.user)
      ensures store.isAuthenticated == old(store.isAuthenticated)
      ensures store.onboardingCompleted == old(store.onboardingCompleted)
    {
      email := value;
      store.UpdateFormData(Email, value);
      isValid := ValidateEmail(value) || value == "";
    }

    /** `handleNext`: whether `onNext` is called. */
    method HandleNext() returns (fires: bool)
      ensures fires <==> email != "" && MatchesEmailPattern(email)
    {
      fires := email != "" && ValidateEmail(email);
    }

    predicate Disabled()
      reads this
    {
      ButtonDisabled(email, isValid)
    }
  }
}
