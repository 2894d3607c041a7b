/** The user profile, its defaults and the profile form's submit rule,
    which both variants of the tracker share. */
module Profiles {
  import opened JsValues

  /** The profile as the state object holds it. Gender, goal and location
      are whatever strings the form's selects deliver; the numbers are kept
      as given, without range checks. */
  datatype Profile = Profile(
    gender: string, age: real, height: real, weight: real,
    goal: string, location: string)

  /** The profile a new user starts with: male, 25 years, 175 cm, 70 kg,
      maintain, home. */
  const DefaultProfile := Profile("male", 25.0, 175.0, 70.0, "maintain", "home")

  /** The profile form's fields as the submit handler reads them: the selects
      as strings, the number inputs converted with unary `+`. */
  datatype ProfileForm = ProfileForm(
    gender: string, age: Number, height: Number, weight: Number,
    goal: string, location: string)

  /** The profile after a form submit: each number takes the input when it
      is truthy (non-zero and not NaN; negatives are accepted) and keeps the
      old value otherwise; gender, goal and location are copied as given. */
  function Submit(prev: Profile, form: ProfileForm): (r: Profile)
    ensures r.gender == form.gender && r.goal == form.goal && r.location == form.location
    ensures Truthy(form.age) ==> r.age == form.age.value
    ensures Truthy(form.height) ==> r.height == form.height.value
    ensures Truthy(form.weight) ==> r.weight == form.weight.value
    ensures !Truthy(form.age) ==> r.age == prev.age
    ensures !Truthy(form.height) ==> r.height == prev.height
    ensures !Truthy(form.weight) ==> r.weight == prev.weight
  {
    Profile(form.gender, OrElse(form.age, prev.age), OrElse(form.height, prev.height),
            OrElse(form.weight, prev.weight), form.goal, form.location)
  }
}
