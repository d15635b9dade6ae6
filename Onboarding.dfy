/** The onboarding store's step counter, form data and local sign-out and completion flags
    (src/store/onboardingStore.js). */
module Onboarding {
  import opened Wrappers

  /** `maxSteps` in `nextStep`. */
  const MaxSteps := 5

  /** The onboarding flow renders one screen per step index 0-4; step 5 has none. */
  const ScreenCount := 5

  /** `nextStep`: move forward unless already at `maxSteps`. */
  function NextStep(step: int): (r: int)
    ensures step < MaxSteps ==> r == step + 1
    ensures step >= MaxSteps ==> r == step
  {
    if step < MaxSteps then step + 1 else step
  }

  /** `prevStep`: move back unless already at 0. */
  function PrevStep(step: int): (r: int)
    ensures step > 0 ==> r == step - 1
    ensures step <= 0 ==> r == step
  {
    if step > 0 then step - 1 else step
  }

  datatype Move = Next | Prev

  function Walk(step: int, moves: seq<Move>): int
    decreases |moves|
  {
    if moves == [] then step
    else Walk(if moves[0] == Next then NextStep(step) else PrevStep(step), moves[1..])
  }

  /** Any walk of forward and backward moves that starts on a step in 0..5 stays on a step in 0..5. */
  lemma {:induction false} WalkStaysInRange(step: int, moves: seq<Move>)
    requires 0 <= step <= MaxSteps
    ensures 0 <= Walk(step, moves) <= MaxSteps
    decreases |moves|
  {
    if moves != [] {
      WalkStaysInRange(if moves[0] == Next then NextStep(step) else PrevStep(step), moves[1..]);
    }
  }

  /** Forward moves alone reach step 5, an index the flow has no screen for. */
  lemma ForwardReachesScreenlessStep()
    ensures Walk(0, [Next, Next, Next, Next, Next]) == MaxSteps
    ensures Walk(0, [Next, Next, Next, Next, Next]) >= ScreenCount
  {
    var moves := [Next, Next, Next, Next, Next];
    assert Walk(0, moves) == Walk(1, moves[1..]);
    assert moves[1..][1..] == [Next, Next, Next];
    assert Walk(1, moves[1..]) == Walk(2, [Next, Next, Next]);
    assert [Next, Next, Next][1..] == [Next, Next];
    assert [Next, Next][1..] == [Next];
    assert [Next][1..] == [];
  }

  /** The four form fields. */
  datatype Field = SignLanguageLevel | HoursPerDay | Email | Name

  datatype FormData = FormData(signLanguageLevel: string, hoursPerDay: string, email: string, name: string)

  const EmptyForm := FormData("", "", "", "")

  /** The value of one field. */
  function Get(f: FormData, field: Field): string {
    match field
    case SignLanguageLevel => f.signLanguageLevel
    case HoursPerDay => f.hoursPerDay
    case Email => f.email
    case Name => f.name
  }

  /** `updateFormData(field, value)`: that field takes the value, the others keep theirs. */
  function Update(f: FormData, field: Field, value: string): (r: FormData)
    ensures Get(r, field) == value
    ensures forall g | g != field :: Get(r, g) == Get(f, g)
  {
    match field
    case SignLanguageLevel => f.(signLanguageLevel := value)
    case HoursPerDay => f.(hoursPerDay := value)
    case Email => f.(email := value)
    case Name => f.(name := value)
  }

  /** Writing a field twice keeps the last value; writing two different fields commutes. */
  lemma UpdateLaws(f: FormData, a: Field, b: Field, x: string, y: string)
    ensures Update(Update(f, a, x), a, y) == Update(f, a, y)
    ensures a != b ==> Update(Update(f, a, x), b, y) == Update(Update(f, b, y), a, x)
  {
  }

  /** A signed-in account, as far as the flow reads it. */
  datatype User = User(uid: string, email: Option<string>)

  /** The onboarding store's step, form, account and completion fields. */
  class OnboardingStore {
    var currentStep: int
    var onboardingCompleted: bool
    var formData: FormData
    var user: Option<User>
    var isAuthenticated: bool

    constructor()
      ensures currentStep == 0 && !onboardingCompleted && formData == EmptyForm
      ensures user.None? && !isAuthenticated
    {
      currentStep, onboardingCompleted, formData := 0, false, EmptyForm;
      user, isAuthenticated := None, false;
    }

    method NextStepAction()
      modifies this
      ensures currentStep == NextStep(old(currentStep))
      ensures onboardingCompleted == old(onboardingCompleted) && formData == old(formData)
      ensures user == old(user) && isAuthenticated == old(isAuthenticated)
    {
      if currentStep < MaxSteps {
        currentStep := currentStep + 1;
      }
    }

    method PrevStepAction()
      modifies this
      ensures currentStep == PrevStep(old(currentStep))
      ensures onboardingCompleted == old(onboardingCompleted) && formData == old(formData)
      ensures user == old(user) && isAuthenticated == old(isAuthenticated)
    {
      if currentStep > 0 {
        currentStep := currentStep - 1;
      }
    }

    /** `setStep`: no bounds check. */
    method SetStep(step: int)
      modifies this
      ensures currentStep == step
      ensures onboardingCompleted == old(onboardingCompleted) && formData == old(formData)
      ensures user == old(user) && isAuthenticated == old(isAuthenticated)
    {
      currentStep := step;
    }

    method UpdateFormData(field: Field, value: string)
      modifies this
      ensures formData == Update(old(formData), field, value)
      ensures currentStep == old(currentStep) && onboardingCompleted == old(onboardingCompleted)
      ensures user == old(user) && isAuthenticated == old(isAuthenticated)
    {
      formData := Update(formData, field, value);
    }

    method ResetFormData()
      modifies this
      ensures formData == EmptyForm
      ensures currentStep == old(currentStep) && onboardingCompleted == old(onboardingCompleted)
      ensures user == old(user) && isAuthenticated == old(isAuthenticated)
    {
      formData := EmptyForm;
    }

    /** `signOut`: the account and step are cleared; the form and completion flag stay. */
    method SignOut()
      modifies this
      ensures user.None? && !isAuthenticated && currentStep == 0
      ensures formData == old(formData) && onboardingCompleted == old(onboardingCompleted)
    {
      user, isAuthenticated, currentStep := None, false, 0;
    }

    /** `completeOnboarding`, local part: the flag is set before the (left out) remote save, and the
        result is `true` on the success path and on the failure path alike. */
    method CompleteOnboarding() returns (r: bool)
      modifies this
      ensures r && onboardingCompleted
      ensures currentStep == old(currentStep) && formData == old(formData)
      ensures user == old(user) && isAuthenticated == old(isAuthenticated)
    {
      onboardingCompleted := true;
      r := true;
    }
  }
}
