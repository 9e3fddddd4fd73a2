/**
 * The plan as the client pages read it (the object stored under
 * "ai-fitness-plan"). Every text field is free text; `None` stands for a
 * property the provider left out where the pages test for one.
 */
module PlanTypes {
  import opened Common

  datatype Exercise = Exercise(name: string, sets: string, reps: string, rest: string, notes: Option<string>)

  datatype WorkoutDay = WorkoutDay(day: int, title: string, description: string, exercises: seq<Exercise>)

  datatype Workout = Workout(motivation: string, tips: Option<seq<string>>, days: Option<seq<WorkoutDay>>)

  /** `kind` is the meal's `type` property. */
  datatype Meal = Meal(
    kind: string,
    title: string,
    description: Option<string>,
    calories: string,
    protein: string,
    carbs: string,
    fats: string)

  datatype DietDay = DietDay(day: int, meals: seq<Meal>)

  /** Only the days are read aloud; the other diet fields are rendered elsewhere. */
  datatype Diet = Diet(days: Option<seq<DietDay>>)

  datatype Plan = Plan(workout: Option<Workout>, diet: Option<Diet>)

  /** Truthiness of an optional text property. */
  predicate HasText(s: Option<string>) {
    s.Some? && s.value != ""
  }

  /** `s || ""` */
  function TextOrEmpty(s: Option<string>): string {
    if HasText(s) then s.value else ""
  }
}
