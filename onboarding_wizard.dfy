/**
 * The onboarding wizard: a five-step counter, the profile answers collected on the way, and the
 * "looking for" checkboxes that toggle membership of a list.
 */
module OnboardingWizard {
  import opened Common

  const TotalSteps: int := 5

  /** A profile answer: a text field, or the list behind the tick boxes. */
  datatype Value = Text(s: string) | Items(xs: seq<string>)

  /** `userData`: an object from field names to answers. */
  type UserData = map<string, Value>

  const InitialUserData: UserData := map["userType" := Text(""), "lookingFor" := Items([]), "region" := Text(""),
                                         "industry" := Text(""), "experience" := Text(""), "referralSource" := Text("")]

  /** `{ ...userData, [field]: value }`: the named field takes the value and every other field keeps its own. */
  function UpdatedUserData(d: UserData, field: string, value: Value): (r: UserData)
    ensures field in r && r[field] == value
    ensures r.Keys == d.Keys + {field}
    ensures forall k | k in d && k != field :: r[k] == d[k]
  {
    d[field := value]
  }

  /** `handleCheckboxChange`'s new list: every occurrence removed when present, appended at the end otherwise. */
  function Toggled(xs: seq<string>, v: string): (r: seq<string>)
    ensures v in r <==> v !in xs
    ensures forall x | x != v :: x in r <==> x in xs
    ensures v !in xs ==> r == xs + [v]
  {
    if v in xs then Without(xs, v) else xs + [v]
  }

  /** Ticking an unticked box and unticking it again restores the list. */
  lemma ToggleTwice(xs: seq<string>, v: string)
    requires v !in xs
    ensures Toggled(Toggled(xs, v), v) == xs
  {
    WithoutConcat(xs, [v], v);
    WithoutAbsent(xs, v);
    assert Without([v], v) == [];
  }

  /** Unticking a ticked box removes it from anywhere in the list; the others stay in order. */
  lemma UntickKeepsOrder(a: seq<string>, b: seq<string>, v: string)
    requires v !in a && v !in b
    ensures Toggled(a + [v] + b, v) == a + b
  {
    var xs := a + [v] + b;
    assert xs[|a|] == v;
    assert Toggled(xs, v) == Without(xs, v);
    WithoutConcat(a + [v], b, v);
    WithoutConcat(a, [v], v);
    WithoutAbsent(a, v);
    WithoutAbsent(b, v);
    assert Without([v], v) == [];
    assert Without(a + [v], v) == a;
  }

  /** The wizard's state. */
  class Wizard {
    var step: int
    var userData: UserData

    /** The step stays between 1 and 5, and `lookingFor` is a list (the source casts it to `string[]`). */
    predicate Valid()
      reads this
    {
      1 <= step <= TotalSteps && "lookingFor" in userData && userData["lookingFor"].Items?
    }

    constructor ()
      ensures Valid() && step == 1 && userData == InitialUserData
    {
      step := 1;
      userData := InitialUserData;
    }

    /** `handleNext`: the next step, or at the last step the answers handed to `onComplete` (the result). */
    method HandleNext() returns (completed: Option<UserData>)
      requires Valid()
      modifies this
      ensures Valid() && userData == old(userData)
      ensures old(step) < TotalSteps ==> step == old(step) + 1 && completed == None
      ensures old(step) == TotalSteps ==> step == TotalSteps && completed == Some(userData)
    {
      if step < TotalSteps {
        step := step + 1;
        completed := None;
      } else {
        completed := Some(userData);
      }
    }

    /** `handleBack`: one step back, except at the first step. */
    method HandleBack()
      requires Valid()
      modifies this
      ensures Valid() && userData == old(userData)
      ensures step == if old(step) > 1 then old(step) - 1 else old(step)
    {
      if step > 1 {
        step := step - 1;
      }
    }

    /** `updateUserData(field, value)`. */
    method UpdateUserData(field: string, value: Value)
      requires Valid()
      requires field == "lookingFor" ==> value.Items?
      modifies this
      ensures Valid() && step == old(step)
      ensures userData == UpdatedUserData(old(userData), field, value)
    {
      userData := userData[field := value];
    }

    /** `handleCheckboxChange(value)`: toggles `value` in `lookingFor`; nothing else changes. */
    method HandleCheckboxChange(value: string)
      requires Valid()
      modifies this
      ensures Valid() && step == old(step)
      ensures userData == UpdatedUserData(old(userData), "lookingFor", Items(Toggled(old(userData)["lookingFor"].xs, value)))
    {
      var newValues := Toggled(userData["lookingFor"].xs, value);
      UpdateUserData("lookingFor", Items(newValues));
    }
  }
}
