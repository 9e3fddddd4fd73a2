/**
 * The setup page (src/app/page.tsx): the profile form, `saveProfile` (an
 * upsert of the form into `user_fitness_profiles`, keyed by the session's
 * user id) and `handleSubmit` (save first, then ask the plan route, keep the
 * plan in local storage and move to /plan). The page's React state becomes
 * the fields of a class; the store is the shared `Database`.
 */
module SetupPage {
  import opened Common
  import opened Store
  import GeneratePlan

  /** The form's input names, in the order the form state declares them. */
  const FormFields: seq<string> := [
    "name", "age", "gender", "heightCm", "weightKg", "fitnessGoal",
    "fitnessLevel", "workoutLocation", "dietPreference", "medicalHistory", "stressLevel"]

  const PlanStorageKey := "ai-fitness-plan"
  const NotLoggedIn := "Not logged in"
  const PlanRequestFailed := "Failed to generate plan"
  const SomethingWentWrong := "Something went wrong"

  predicate HasAllFields(form: map<string, string>) {
    forall k :: k in FormFields ==> k in form
  }

  /** The row `saveProfile` writes: each form value under its snake_case column. */
  function ProfileRowOf(userId: UserId, form: map<string, string>): ProfileRow
    requires HasAllFields(form)
  {
    ProfileRow(
      userId,
      form["name"], form["age"], form["gender"], form["heightCm"], form["weightKg"],
      form["fitnessGoal"], form["fitnessLevel"], form["workoutLocation"],
      form["dietPreference"], form["medicalHistory"], form["stressLevel"])
  }

  /**
   * The body the plan route sees for `JSON.stringify(form)`: every form value
   * is a string, and the form carries no `user_id` unless an input added one.
   */
  function BodyOfForm(form: map<string, string>): GeneratePlan.Body
    requires HasAllFields(form)
  {
    GeneratePlan.Body(form["name"], Some(JStr(form["age"])),
                      if "user_id" in form then form["user_id"] else "")
  }

  /**
   * How `handleSubmit` reads the plan request's outcome: the plan to keep, or
   * the message to show. Only an ok status with a readable body yields a plan,
   * and the message shown is never blank.
   */
  function PlanReply(fetched: FetchOutcome): (r: Result<Json, string>)
    ensures r.Success? <==> fetched.Received? && IsOk(fetched.status) && fetched.body.Success?
    ensures r.Success? ==> r.value == fetched.body.value
    ensures fetched.Received? && !IsOk(fetched.status) ==> r == Failure(PlanRequestFailed)
    ensures fetched.NetworkError? ==> r == Failure(OrElse(fetched.message, SomethingWentWrong))
    ensures fetched.Received? && IsOk(fetched.status) && fetched.body.Failure? ==>
              r == Failure(OrElse(fetched.body.error, SomethingWentWrong))
    ensures r.Failure? ==> r.error != ""
  {
    match fetched
    case NetworkError(m) => Failure(OrElse(m, SomethingWentWrong))
    case Received(status, body) =>
      if !IsOk(status) then Failure(OrElse(PlanRequestFailed, SomethingWentWrong))
      else if body.Failure? then Failure(OrElse(body.error, SomethingWentWrong))
      else Success(body.value)
  }

  class SetupPage {
    var form: map<string, string>
    var loading: bool
    var saving: bool
    var error: Option<string>
    /** `localStorage`, holding the JSON values that were stringified into it. */
    var storage: map<string, Json>
    /** The path the router was sent to ("" while the page stays). */
    var route: string
    const db: Database
    /** The bodies sent to the plan route, in order. */
    ghost var planRequests: seq<map<string, string>>

    ghost predicate Valid()
      reads this`form, db
    {
      HasAllFields(form) && db.Valid()
    }

    constructor (db: Database, storage: map<string, Json>)
      requires db.Valid()
      ensures Valid()
      ensures this.db == db && this.storage == storage
      ensures form == map k | k in FormFields :: ""
      ensures !loading && !saving && error == None && route == "" && planRequests == []
    {
      this.db := db;
      this.storage := storage;
      form := map k | k in FormFields :: "";
      loading, saving, error, route := false, false, None, "";
      planRequests := [];
    }

    /** `handleChange`: set the field the input names, keep every other field. */
    method HandleChange(name: string, value: string)
      requires Valid()
      modifies this`form
      ensures Valid()
      ensures form == old(form)[name := value]
      ensures forall k :: k in old(form) && k != name ==> k in form && form[k] == old(form)[k]
    {
      form := form[name := value];
    }

    /**
     * `saveProfile`: with a session user, upsert the form under that user's id;
     * report failure through `error` and the result. `saving` ends false.
     */
    method SaveProfile(session: Option<UserId>, storeError: Option<string>) returns (saved: bool)
      requires Valid()
      modifies this`saving, this`error, db`profiles
      ensures Valid()
      ensures !saving
      ensures saved <==> session.Some? && storeError.None?
      ensures session.None? ==> error == Some(NotLoggedIn) && db.profiles == old(db.profiles)
      ensures session.Some? && storeError.Some? ==> error == storeError && db.profiles == old(db.profiles)
      ensures saved ==> error == None && db.profiles == Upsert(old(db.profiles), ProfileRowOf(session.value, form))
    {
      saving := true;
      error := None;
      if session.None? {
        saving := false;
        error := Some(NotLoggedIn);
        return false;
      }
      if storeError.Some? {
        saving := false;
        error := storeError;
        return false;
      }
      db.UpsertProfile(ProfileRowOf(session.value, form));
      saving := false;
      return true;
    }

    /**
     * `handleSubmit`: save first; only a successful save sends the form to the
     * plan route. An ok response with a readable body is stored under
     * "ai-fitness-plan" and the page moves to /plan; any failure sets `error`.
     * `loading` always ends false.
     */
    method HandleSubmit(session: Option<UserId>, storeError: Option<string>, fetched: FetchOutcome)
      requires Valid()
      modifies this`loading, this`saving, this`error, this`storage, this`route, this`planRequests, db`profiles
      ensures Valid()
      ensures !loading && !saving
      ensures session.None? || storeError.Some? ==>
        && planRequests == old(planRequests) && storage == old(storage) && route == old(route)
        && db.profiles == old(db.profiles)
        && error == (if session.None? then Some(NotLoggedIn) else storeError)
      ensures session.Some? && storeError.None? ==>
        && db.profiles == Upsert(old(db.profiles), ProfileRowOf(session.value, form))
        && planRequests == old(planRequests) + [form]
        && match PlanReply(fetched)
           case Failure(message) => error == Some(message) && storage == old(storage) && route == old(route)
           case Success(plan) => error == None && storage == old(storage)[PlanStorageKey := plan] && route == "/plan"
    {
      loading := true;
      error := None;
      var saved := SaveProfile(session, storeError);
      if !saved {
        loading := false;
        return;
      }
      planRequests := planRequests + [form];
      ReceivePlan(fetched);
      loading := false;
    }

    /** The second half of `handleSubmit`: act on how the plan request ended. */
    method ReceivePlan(fetched: FetchOutcome)
      modifies this`error, this`storage, this`route
      ensures match PlanReply(fetched)
        case Failure(message) => error == Some(message) && storage == old(storage) && route == old(route)
        case Success(plan) => error == old(error) && storage == old(storage)[PlanStorageKey := plan] && route == "/plan"
    {
      var reply := PlanReply(fetched);
      if reply.Failure? {
        error := Some(reply.error);
      } else {
        storage := storage[PlanStorageKey := reply.value];
        route := "/plan";
      }
    }
  }

  /**
   * The row the setup page saves is the row the plan route finds: after a
   * save, a request carrying the same form resolves to the saver's id, as long
   * as no other user's row has the same name and age.
   */
  lemma SavedProfileIsResolved(rows: seq<ProfileRow>, userId: UserId, form: map<string, string>)
    requires UniqueIds(rows) && HasAllFields(form)
    requires userId != "" && form["name"] != "" && form["age"] != "" && AllDigits(form["age"])
    requires forall x :: x in rows && x.userId != userId ==>
               !GeneratePlan.RowMatches(x, form["name"], ToNumber(Some(JStr(form["age"]))))
    ensures GeneratePlan.ResolveUserId(BodyOfForm(form), Upsert(rows, ProfileRowOf(userId, form)),
                                       GeneratePlan.Answered) == userId
  {
    var row := ProfileRowOf(userId, form);
    var r := Upsert(rows, row);
    var age := ToNumber(Some(JStr(form["age"])));
    UpsertMembers(rows, row);
    assert GeneratePlan.RowMatches(row, form["name"], age);
    assert row in r;
    var m := GeneratePlan.FirstMatch(r, form["name"], age);
    assert m.Some?;
    assert m.value == row by {
      var i :| 0 <= i < |r| && r[i] == m.value && GeneratePlan.RowMatches(r[i], form["name"], age);
      assert r[i] in r;
    }
  }
}
