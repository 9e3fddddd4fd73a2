/**
 * The hosted store, seen from this application: the `user_fitness_profiles`
 * table (a sequence of rows, in the store's order) and the `user_plans` table
 * (a map keyed by user id). Both are written only by upsert on `user_id`.
 */
module Store {
  import opened Common

  type UserId = string

  /** One row of `user_fitness_profiles`, with the values exactly as the form wrote them. */
  datatype ProfileRow = ProfileRow(
    userId: UserId,
    name: string,
    age: string,
    gender: string,
    heightCm: string,
    weightKg: string,
    fitnessGoal: string,
    fitnessLevel: string,
    workoutLocation: string,
    dietPreference: string,
    medicalHistory: string,
    stressLevel: string)

  /** The conflict key of the profile table: no two rows share a user id. */
  predicate UniqueIds(rows: seq<ProfileRow>) {
    forall i, j :: 0 <= i < j < |rows| ==> rows[i].userId != rows[j].userId
  }

  /** Insert `row`, or replace the row that has its user id (`onConflict: "user_id"`). */
  function Upsert(rows: seq<ProfileRow>, row: ProfileRow): seq<ProfileRow> {
    if rows == [] then [row]
    else if rows[0].userId == row.userId then [row] + rows[1..]
    else [rows[0]] + Upsert(rows[1..], row)
  }

  /** A row may head a table with unique ids when no row of the table shares its id. */
  lemma UniqueCons(h: ProfileRow, t: seq<ProfileRow>)
    requires UniqueIds(t)
    requires forall x :: x in t ==> x.userId != h.userId
    ensures UniqueIds([h] + t)
  {
    var r := [h] + t;
    forall i, j | 0 <= i < j < |r| ensures r[i].userId != r[j].userId {
      assert r[j] == t[j - 1];
      if i > 0 {
        assert r[i] == t[i - 1];
      }
    }
  }

  lemma UniqueTail(rows: seq<ProfileRow>)
    requires UniqueIds(rows) && rows != []
    ensures UniqueIds(rows[1..])
    ensures forall x :: x in rows[1..] ==> x.userId != rows[0].userId
  {
    var t := rows[1..];
    forall i, j | 0 <= i < j < |t| ensures t[i].userId != t[j].userId {
      assert t[i] == rows[i + 1] && t[j] == rows[j + 1];
    }
    forall x | x in t ensures x.userId != rows[0].userId {
      var k :| 0 <= k < |t| && t[k] == x;
      assert rows[k + 1] == x;
    }
  }

  /**
   * The rows after an upsert are `row` and the rows of other users, each
   * kept unchanged.
   */
  lemma {:induction false} UpsertMembers(rows: seq<ProfileRow>, row: ProfileRow)
    requires UniqueIds(rows)
    ensures forall x :: x in Upsert(rows, row) <==> (x == row || (x in rows && x.userId != row.userId))
  {
    if rows != [] {
      UniqueTail(rows);
      UpsertMembers(rows[1..], row);
      assert rows == [rows[0]] + rows[1..];
    }
  }

  /**
   * After an upsert the table still has one row per user, the row for
   * `row.userId` is `row`, and every other user's row is kept unchanged.
   */
  lemma {:induction false} UpsertKeyed(rows: seq<ProfileRow>, row: ProfileRow)
    requires UniqueIds(rows)
    ensures var r := Upsert(rows, row);
      && UniqueIds(r)
      && row in r
      && (forall i :: 0 <= i < |r| && r[i].userId == row.userId ==> r[i] == row)
      && (forall x :: x in rows && x.userId != row.userId ==> x in r)
      && (forall x :: x in r && x != row ==> x in rows && x.userId != row.userId)
  {
    UpsertMembers(rows, row);
    if rows != [] {
      UniqueTail(rows);
      if rows[0].userId == row.userId {
        UniqueCons(row, rows[1..]);
      } else {
        UpsertKeyed(rows[1..], row);
        UpsertMembers(rows[1..], row);
        UniqueCons(rows[0], Upsert(rows[1..], row));
      }
    }
    var r := Upsert(rows, row);
    forall i | 0 <= i < |r| && r[i].userId == row.userId ensures r[i] == row {
      assert r[i] in r;
    }
  }

  /** Both tables of the hosted store. */
  class Database {
    var profiles: seq<ProfileRow>
    var plans: map<UserId, Json>

    ghost predicate Valid()
      reads this`profiles
    {
      UniqueIds(profiles)
    }

    constructor (profiles: seq<ProfileRow>, plans: map<UserId, Json>)
      requires UniqueIds(profiles)
      ensures Valid()
      ensures this.profiles == profiles && this.plans == plans
    {
      this.profiles := profiles;
      this.plans := plans;
    }

    /** `from("user_fitness_profiles").upsert(row, { onConflict: "user_id" })`. */
    method UpsertProfile(row: ProfileRow)
      requires Valid()
      modifies this`profiles
      ensures Valid()
      ensures profiles == Upsert(old(profiles), row)
    {
      UpsertKeyed(profiles, row);
      profiles := Upsert(profiles, row);
    }

    /** `from("user_plans").upsert({ user_id, plan }, { onConflict: "user_id" })`. */
    method UpsertPlan(userId: UserId, plan: Json)
      modifies this`plans
      ensures plans == old(plans)[userId := plan]
      ensures forall u :: u != userId ==> (u in plans <==> u in old(plans))
      ensures forall u :: u != userId && u in plans ==> plans[u] == old(plans)[u]
    {
      plans := plans[userId := plan];
    }
  }
}
