/** The name step of onboarding: its initial value, change handler and the trimmed-non-empty guard
    shared by `handleNext` and the Next button (src/components/NameInput.jsx). */
module NameInput {
  import opened Text
  import opened Onboarding

  /** `handleNext` calls `onNext` only when the name has a non-whitespace character. */
  function NextFires(name: string): (r: bool)
    ensures r <==> HasNonSpace(name)
  {
    TrimmedNonEmptyIff(name);
    Trim(name) != ""
  }

  /** `disabled={!name.trim()}`. */
  predicate ButtonDisabled(name: string) {
    Trim(name) == ""
  }

  /** Next is disabled exactly when `handleNext` would do nothing, that is when the name is all
      whitespace. */
  lemma DisabledIff(name: string)
    ensures ButtonDisabled(name) <==> !NextFires(name)
    ensures ButtonDisabled(name) <==> forall i | 0 <= i < |name| :: IsSpace(name[i])
  {
    TrimmedNonEmptyIff(name);
  }

  /** The step's local state, bound to the onboarding store. */
  class NameStep {
    var name: string
    const store: OnboardingStore

    /** `formData.name || ''`: the stored name (the empty string stays empty). */
    constructor(store: OnboardingStore)
      ensures this.store == store && name == store.formData.name
    {
      this.store := store;
      name := if store.formData.name != "" then store.formData.name else "";
    }

    /** `handleNameChange`: the local and the stored name both take the typed value. */
    method HandleNameChange(value: string)
      modifies this, store
      ensures name == value && store.formData.name == value
      ensures store.formData == Update(old(store.formData), Name, value)
      ensures store.currentStep == old(store.currentStep) && store.user == old(store.user)
      ensures store.isAuthenticated == old(store.isAuthenticated)
      ensures store.onboardingCompleted == old(store.onboardingCompleted)
    {
      name := value;
      store.UpdateFormData(Name, value);
    }

    /** `handleNext`: whether `onNext` is called. */
    method HandleNext() returns (fires: bool)
      ensures fires <==> HasNonSpace(name)
    {
      fires := NextFires(name);
    }
  }
}
