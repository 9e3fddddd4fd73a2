/**
 * The plan-generation route (src/app/api/generate-plan/route.ts, `POST`).
 *
 * `Exchange` is the specification: one request, the store as it is, the
 * outcomes of the external calls, and the JSON parser give the response, the
 * new `user_plans` table and the external calls issued, in order. `Post` is
 * the handler as the source writes it, step by step with early returns, over
 * a `Database` object; its postcondition ties it to `Exchange`, and the lemmas
 * below state what the source promises about `Exchange`.
 */
module GeneratePlan {
  import opened Common
  import opened Store
  import TextCleanup

  /** The environment variables the route reads; "" stands for unset or empty. */
  datatype Env = Env(
    publicSupabaseUrl: string,  // NEXT_PUBLIC_SUPABASE_URL
    supabaseUrl: string,        // SUPABASE_URL
    serviceRoleKey: string,     // SUPABASE_SERVICE_ROLE_KEY
    groqApiKey: string)         // GROQ_API_KEY

  /**
   * The request-body properties the route inspects ("" for a missing or empty
   * string); the other profile fields only reach the prompt.
   */
  datatype Body = Body(name: string, age: Option<Json>, userId: string)

  /** How an issued store query came back: data, an `error` result, or an exception. */
  datatype QueryOutcome = Answered | ErrorReturned | Threw

  /** What the chat-completion provider did when called ("" for missing content). */
  datatype Completion = Replied(content: string) | CallFailed(message: string)

  /** The outcomes of the external calls, used only if the call is made. */
  datatype Services = Services(
    profileQuery: QueryOutcome,
    planQuery: QueryOutcome,
    completion: Completion,
    upsertSucceeds: bool)

  /** An external call the route issues. */
  datatype Call =
    | ProfileLookup(name: string, age: Option<int>)
    | PlanLookup(userId: UserId)
    | ProviderCall
    | PlanUpsert(userId: UserId, plan: Json)

  datatype Outcome = Outcome(response: Response, plans: map<UserId, Json>, calls: seq<Call>)

  const ConfigError := "Server configuration error"
  const GenerationFailed := "Generation failed"

  /** `NEXT_PUBLIC_SUPABASE_URL || SUPABASE_URL` */
  function SupabaseUrl(env: Env): string {
    OrElse(env.publicSupabaseUrl, env.supabaseUrl)
  }

  predicate StoreConfigured(env: Env) {
    SupabaseUrl(env) != "" && env.serviceRoleKey != ""
  }

  /** `body.name && (body.age || body.age === 0)` */
  predicate WantsNameAgeLookup(body: Body) {
    body.name != "" && (IsTruthy(body.age) || body.age == Some(JNum(0)))
  }

  /**
   * A row answers `.eq("name", name).eq("age", age)`: equal name, and an age
   * column whose numeric value is `age` (NaN matches nothing).
   */
  predicate RowMatches(row: ProfileRow, name: string, age: Option<int>) {
    row.name == name && age.Some? && ToNumber(Some(JStr(row.age))) == age
  }

  /** `.limit(1).maybeSingle()`: the first matching row in the store's order. */
  function FirstMatch(rows: seq<ProfileRow>, name: string, age: Option<int>): (r: Option<ProfileRow>)
    ensures r.None? <==> forall i :: 0 <= i < |rows| ==> !RowMatches(rows[i], name, age)
    ensures r.Some? ==> exists i :: 0 <= i < |rows| && rows[i] == r.value
                          && RowMatches(rows[i], name, age)
                          && forall j :: 0 <= j < i ==> !RowMatches(rows[j], name, age)
  {
    if rows == [] then None
    else if RowMatches(rows[0], name, age) then Some(rows[0])
    else
      var r := FirstMatch(rows[1..], name, age);
      assert forall i :: 1 <= i < |rows| ==> rows[i] == rows[1..][i - 1];
      r
  }

  /** The user id the resolution step settles on ("" for none). */
  function ResolveUserId(body: Body, rows: seq<ProfileRow>, q: QueryOutcome): UserId {
    if !WantsNameAgeLookup(body) then body.userId
    else match q
      case Threw => ""
      case ErrorReturned => body.userId
      case Answered =>
        var m := FirstMatch(rows, body.name, ToNumber(body.age));
        if m.Some? && m.value.userId != "" then m.value.userId else body.userId
  }

  /** The stored plan the cache step returns, if any. */
  function CachedPlan(plans: map<UserId, Json>, userId: UserId, q: QueryOutcome): Option<Json> {
    if userId != "" && q.Answered? && userId in plans && Truthy(plans[userId])
    then Some(plans[userId]) else None
  }

  function LookupCalls(body: Body): seq<Call> {
    if WantsNameAgeLookup(body) then [ProfileLookup(body.name, ToNumber(body.age))] else []
  }

  function CacheCalls(userId: UserId): seq<Call> {
    if userId != "" then [PlanLookup(userId)] else []
  }

  function Fail(message: string): Response {
    Response(500, ErrorBody(message))
  }

  /**
   * The provider call and the parse, which share one `catch`: the plan, or the
   * message of whichever failed.
   */
  function Generated(c: Completion, parse: string -> Result<Json, string>): Result<Json, string> {
    match c
    case CallFailed(m) => Failure(m)
    case Replied(content) => parse(TextCleanup.Clean(content))
  }

  /** Everything after a cache miss: key check, generation, and the keyed write. */
  function Generate(groqApiKey: string, plans: map<UserId, Json>, userId: UserId,
                    before: seq<Call>, svc: Services,
                    parse: string -> Result<Json, string>): Outcome
  {
    if groqApiKey == "" then Outcome(Fail(ConfigError), plans, before)
    else match Generated(svc.completion, parse)
      case Failure(m) => Outcome(Fail(OrElse(m, GenerationFailed)), plans, before + [ProviderCall])
      case Success(plan) =>
        if userId == "" then Outcome(Response(200, plan), plans, before + [ProviderCall])
        else Outcome(Response(200, plan),
                     if svc.upsertSucceeds then plans[userId := plan] else plans,
                     before + [ProviderCall, PlanUpsert(userId, plan)])
  }

  /** The whole exchange, as a function of the request, the store and the external outcomes. */
  function Exchange(env: Env, request: Result<Body, string>, rows: seq<ProfileRow>,
                    plans: map<UserId, Json>, svc: Services,
                    parse: string -> Result<Json, string>): Outcome
  {
    match request
    case Failure(m) => Outcome(Fail(OrElse(m, GenerationFailed)), plans, [])
    case Success(body) =>
      if !StoreConfigured(env) then Outcome(Fail(ConfigError), plans, [])
      else
        var userId := ResolveUserId(body, rows, svc.profileQuery);
        var before := LookupCalls(body) + CacheCalls(userId);
        match CachedPlan(plans, userId, svc.planQuery)
        case Some(stored) => Outcome(Response(200, stored), plans, before)
        case None => Generate(env.groqApiKey, plans, userId, before, svc, parse)
  }

  /** On a cache miss the exchange continues with `Generate` after the lookups. */
  lemma MissOutcome(env: Env, body: Body, rows: seq<ProfileRow>,
                    plans: map<UserId, Json>, svc: Services,
                    parse: string -> Result<Json, string>)
    requires StoreConfigured(env)
    requires CachedPlan(plans, ResolveUserId(body, rows, svc.profileQuery), svc.planQuery).None?
    ensures var u := ResolveUserId(body, rows, svc.profileQuery);
      Exchange(env, Success(body), rows, plans, svc, parse)
        == Generate(env.groqApiKey, plans, u, LookupCalls(body) + CacheCalls(u), svc, parse)
  {
  }

  /**
   * The best-effort resolution block: the name+age lookup, then the client's
   * `user_id` as fallback; an exception inside the `try` skips the fallback.
   */
  method ResolveUser(db: Database, body: Body, q: QueryOutcome)
    returns (userId: UserId, ghost calls: seq<Call>)
    ensures userId == ResolveUserId(body, db.profiles, q)
    ensures calls == LookupCalls(body)
  {
    userId := "";
    calls := [];
    var threw := false;
    if WantsNameAgeLookup(body) {
      var age := ToNumber(body.age);
      calls := calls + [ProfileLookup(body.name, age)];
      match q {
        case Threw =>
          threw := true;
        case ErrorReturned =>
        case Answered =>
          var found := FirstMatch(db.profiles, body.name, age);
          if found.Some? && found.value.userId != "" {
            userId := found.value.userId;
          }
      }
    }
    if !threw && userId == "" && body.userId != "" {
      userId := body.userId;
    }
  }

  /** The route handler, step by step over the store. */
  method Post(db: Database, env: Env, request: Result<Body, string>, svc: Services,
              parse: string -> Result<Json, string>)
    returns (response: Response, ghost calls: seq<Call>)
    modifies db`plans
    ensures var o := Exchange(env, request, db.profiles, old(db.plans), svc, parse);
      response == o.response && db.plans == o.plans && calls == o.calls
  {
    calls := [];
    if request.Failure? {
      response := Fail(OrElse(request.error, GenerationFailed));
      return;
    }
    var body := request.value;

    if !StoreConfigured(env) {
      response := Fail(ConfigError);
      return;
    }

    var userId, lookupCalls := ResolveUser(db, body, svc.profileQuery);
    calls := calls + lookupCalls;

    if userId != "" {
      calls := calls + [PlanLookup(userId)];
      if svc.planQuery.Answered? && userId in db.plans && Truthy(db.plans[userId]) {
        response := Response(200, db.plans[userId]);
        return;
      }
    }
    assert calls == LookupCalls(body) + CacheCalls(userId);
    MissOutcome(env, body, db.profiles, db.plans, svc, parse);
    response, calls := GenerateAndSave(db, env.groqApiKey, userId, calls, svc, parse);
  }

  /**
   * The handler after a cache miss: the provider key check, the provider
   * call, clean-up and parse, and the write under the user id.
   */
  method GenerateAndSave(db: Database, groqApiKey: string, userId: UserId, ghost before: seq<Call>,
                         svc: Services, parse: string -> Result<Json, string>)
    returns (response: Response, ghost calls: seq<Call>)
    modifies db`plans
    ensures var o := Generate(groqApiKey, old(db.plans), userId, before, svc, parse);
      response == o.response && db.plans == o.plans && calls == o.calls
  {
    calls := before;
    if groqApiKey == "" {
      response := Fail(ConfigError);
      return;
    }

    calls := calls + [ProviderCall];
    if svc.completion.CallFailed? {
      response := Fail(OrElse(svc.completion.message, GenerationFailed));
      return;
    }
    var text := svc.completion.content;
    text := TextCleanup.Clean(text);
    var parsed := parse(text);
    assert parsed == Generated(svc.completion, parse);
    if parsed.Failure? {
      response := Fail(OrElse(parsed.error, GenerationFailed));
      return;
    }
    var plan := parsed.value;

    if userId != "" {
      calls := calls + [PlanUpsert(userId, plan)];
      ConcatAssoc(before, [ProviderCall], [PlanUpsert(userId, plan)]);
      if svc.upsertSucceeds {
        db.UpsertPlan(userId, plan);
      }
    }
    response := Response(200, plan);
  }

  // ---------------------------------------------------------------------
  // Properties of the exchange
  // ---------------------------------------------------------------------

  /** Missing store URL or service key: 500, no call of any kind, nothing written. */
  lemma MissingStoreConfigStopsEarly(env: Env, body: Body, rows: seq<ProfileRow>,
                                     plans: map<UserId, Json>, svc: Services,
                                     parse: string -> Result<Json, string>)
    requires !StoreConfigured(env)
    ensures Exchange(env, Success(body), rows, plans, svc, parse)
         == Outcome(Response(500, ErrorBody("Server configuration error")), plans, [])
  {
  }

  /**
   * The first row matching name and age decides the user id whenever its id is
   * non-empty, whatever `user_id` the client passed.
   */
  lemma NameAgeMatchWins(body: Body, rows: seq<ProfileRow>, i: nat)
    requires WantsNameAgeLookup(body)
    requires i < |rows| && RowMatches(rows[i], body.name, ToNumber(body.age))
    requires forall j :: 0 <= j < i ==> !RowMatches(rows[j], body.name, ToNumber(body.age))
    requires rows[i].userId != ""
    ensures ResolveUserId(body, rows, Answered) == rows[i].userId
  {
    var m := FirstMatch(rows, body.name, ToNumber(body.age));
    var k :| 0 <= k < |rows| && rows[k] == m.value && RowMatches(rows[k], body.name, ToNumber(body.age))
             && forall j :: 0 <= j < k ==> !RowMatches(rows[j], body.name, ToNumber(body.age));
    assert k == i;
  }

  /**
   * Where the resolved id comes from: a lookup runs only for a truthy name
   * with a truthy or zero age; the client's `user_id` is used only when no
   * usable match came back; and an exception during the lookup leaves no id.
   */
  lemma ResolutionSources(body: Body, rows: seq<ProfileRow>, q: QueryOutcome)
    ensures var u := ResolveUserId(body, rows, q);
      && (!WantsNameAgeLookup(body) ==> u == body.userId)
      && (WantsNameAgeLookup(body) && q == Threw ==> u == "")
      && (WantsNameAgeLookup(body) && q == ErrorReturned ==> u == body.userId)
      && (u != "" && u != body.userId ==>
            WantsNameAgeLookup(body) && q == Answered
            && exists i :: 0 <= i < |rows| && rows[i].userId == u
                           && RowMatches(rows[i], body.name, ToNumber(body.age)))
      && (WantsNameAgeLookup(body) && q == Answered && u == body.userId && u != "" ==>
            forall i :: 0 <= i < |rows| && RowMatches(rows[i], body.name, ToNumber(body.age))
                        && rows[i].userId != "" && rows[i].userId != u ==>
                          exists j :: 0 <= j < i && RowMatches(rows[j], body.name, ToNumber(body.age)))
  {
    var u := ResolveUserId(body, rows, q);
    if WantsNameAgeLookup(body) && q == Answered && u == body.userId && u != "" {
      var age := ToNumber(body.age);
      forall i | 0 <= i < |rows| && RowMatches(rows[i], body.name, age)
                 && rows[i].userId != "" && rows[i].userId != u
        ensures exists j :: 0 <= j < i && RowMatches(rows[j], body.name, age)
      {
        var m := FirstMatch(rows, body.name, age);
        var k :| 0 <= k < |rows| && rows[k] == m.value && RowMatches(rows[k], body.name, age)
                 && forall j :: 0 <= j < k ==> !RowMatches(rows[j], body.name, age);
        assert k != i;
        assert k < i;
      }
    }
  }

  /** An `error` result from the profile lookup is handled exactly like "no matching row". */
  lemma ProfileLookupErrorIsNoMatch(env: Env, request: Result<Body, string>, rows: seq<ProfileRow>,
                                    plans: map<UserId, Json>, svc: Services,
                                    parse: string -> Result<Json, string>)
    requires svc.profileQuery == ErrorReturned
    ensures Exchange(env, request, rows, plans, svc, parse)
         == Exchange(env, request, [], plans, svc.(profileQuery := Answered), parse)
  {
  }

  /**
   * An exception during the profile lookup is handled like "no matching row and
   * no client `user_id`": the request still goes on, without an identity.
   */
  lemma ProfileLookupThrowIsNoIdentity(env: Env, body: Body, rows: seq<ProfileRow>,
                                       plans: map<UserId, Json>, svc: Services,
                                       parse: string -> Result<Json, string>)
    requires svc.profileQuery == Threw && WantsNameAgeLookup(body)
    ensures Exchange(env, Success(body), rows, plans, svc, parse)
         == Exchange(env, Success(body.(userId := "")), [], plans, svc.(profileQuery := Answered), parse)
  {
  }

  /**
   * A failed plan lookup (error result or exception) answers the request as a
   * store without that user's plan would.
   */
  lemma PlanLookupFailureIsMiss(env: Env, request: Result<Body, string>, rows: seq<ProfileRow>,
                                plans: map<UserId, Json>, svc: Services,
                                parse: string -> Result<Json, string>)
    requires svc.planQuery != Answered
    requires request.Success?
    ensures var u := ResolveUserId(request.value, rows, svc.profileQuery);
      var o1 := Exchange(env, request, rows, plans, svc, parse);
      var o2 := Exchange(env, request, rows, plans - {u}, svc.(planQuery := Answered), parse);
      o1.response == o2.response && o1.calls == o2.calls
  {
  }

  /**
   * A resolved user with a truthy stored plan gets that plan back verbatim:
   * no provider call, no write, even without a provider key.
   */
  lemma StoredPlanServedVerbatim(env: Env, body: Body, rows: seq<ProfileRow>,
                                 plans: map<UserId, Json>, svc: Services,
                                 parse: string -> Result<Json, string>)
    requires StoreConfigured(env)
    requires svc.planQuery == Answered
    requires var u := ResolveUserId(body, rows, svc.profileQuery);
      u != "" && u in plans && Truthy(plans[u])
    ensures var u := ResolveUserId(body, rows, svc.profileQuery);
      var o := Exchange(env, Success(body), rows, plans, svc, parse);
      && o.response == Response(200, plans[u])
      && o.plans == plans
      && ProviderCall !in o.calls
      && forall c :: c in o.calls ==> !c.PlanUpsert?
  {
  }

  /**
   * When the cleaned reply does not parse, the response is 500 with the
   * parser's message and nothing is written.
   */
  lemma UnparsableReplyFails(env: Env, body: Body, rows: seq<ProfileRow>,
                             plans: map<UserId, Json>, svc: Services,
                             parse: string -> Result<Json, string>)
    requires StoreConfigured(env) && env.groqApiKey != ""
    requires CachedPlan(plans, ResolveUserId(body, rows, svc.profileQuery), svc.planQuery).None?
    requires Generated(svc.completion, parse).Failure?
    ensures var o := Exchange(env, Success(body), rows, plans, svc, parse);
      && o.response == Response(500, ErrorBody(OrElse(Generated(svc.completion, parse).error, "Generation failed")))
      && o.plans == plans
      && forall c :: c in o.calls ==> !c.PlanUpsert?
  {
  }

  /** An empty reply cleans to "", which `JSON.parse` rejects: the request fails with 500. */
  lemma EmptyReplyFails(env: Env, body: Body, rows: seq<ProfileRow>,
                        plans: map<UserId, Json>, svc: Services,
                        parse: string -> Result<Json, string>)
    requires parse("").Failure?
    requires StoreConfigured(env) && env.groqApiKey != ""
    requires CachedPlan(plans, ResolveUserId(body, rows, svc.profileQuery), svc.planQuery).None?
    requires svc.completion == Replied("")
    ensures var o := Exchange(env, Success(body), rows, plans, svc, parse);
      o.response.status == 500 && o.plans == plans
  {
    assert TextCleanup.Clean("") == "";
  }

  /**
   * A freshly parsed plan is returned with 200 whether or not it is saved; it
   * is stored under the resolved user id only, and only when the write
   * succeeds; without a user id nothing is written or attempted.
   */
  lemma FreshPlanReturnedAndKeyed(env: Env, body: Body, rows: seq<ProfileRow>,
                                  plans: map<UserId, Json>, svc: Services,
                                  parse: string -> Result<Json, string>)
    requires StoreConfigured(env) && env.groqApiKey != ""
    requires CachedPlan(plans, ResolveUserId(body, rows, svc.profileQuery), svc.planQuery).None?
    requires Generated(svc.completion, parse).Success?
    ensures var u := ResolveUserId(body, rows, svc.profileQuery);
      var plan := Generated(svc.completion, parse).value;
      var o := Exchange(env, Success(body), rows, plans, svc, parse);
      && o.response == Response(200, plan)
      && (u != "" && svc.upsertSucceeds ==> o.plans == plans[u := plan])
      && (u != "" ==> PlanUpsert(u, plan) in o.calls)
      && (u == "" || !svc.upsertSucceeds ==> o.plans == plans)
      && (u == "" ==> forall c :: c in o.calls ==> !c.PlanUpsert?)
      && (forall k :: k != u ==> (k in o.plans <==> k in plans))
      && (forall k :: k != u && k in plans ==> o.plans[k] == plans[k])
  {
    MissOutcome(env, body, rows, plans, svc, parse);
  }

  /**
   * The route never answers 400: every response is 200 or 500, a 500 carries
   * an `{error}` body, and a 200 carries either the stored plan or exactly
   * what the parser made of the cleaned reply.
   */
  lemma ResponsesAre200Or500(env: Env, request: Result<Body, string>, rows: seq<ProfileRow>,
                             plans: map<UserId, Json>, svc: Services,
                             parse: string -> Result<Json, string>)
    ensures var o := Exchange(env, request, rows, plans, svc, parse);
      && (o.response.status == 200 || o.response.status == 500)
      && (o.response.status == 500 ==> exists m :: o.response.body == ErrorBody(m))
      && (o.response.status == 200 ==>
            request.Success?
            && var u := ResolveUserId(request.value, rows, svc.profileQuery);
               (CachedPlan(plans, u, svc.planQuery) == Some(o.response.body)
                || (svc.completion.Replied?
                    && parse(TextCleanup.Clean(svc.completion.content)) == Success(o.response.body))))
  {
  }

  /**
   * The user-plans table changes at most at the resolved user id: every other
   * user's entry is kept.
   */
  lemma OtherUsersUntouched(env: Env, request: Result<Body, string>, rows: seq<ProfileRow>,
                            plans: map<UserId, Json>, svc: Services,
                            parse: string -> Result<Json, string>, other: UserId)
    requires request.Success? ==> other != ResolveUserId(request.value, rows, svc.profileQuery)
    ensures var o := Exchange(env, request, rows, plans, svc, parse);
      (other in o.plans <==> other in plans) && (other in plans ==> o.plans[other] == plans[other])
  {
    if request.Success? && StoreConfigured(env) {
      var body := request.value;
      if CachedPlan(plans, ResolveUserId(body, rows, svc.profileQuery), svc.planQuery).None? {
        MissOutcome(env, body, rows, plans, svc, parse);
      }
    }
  }

  /** A cache hit answers with the stored plan after the lookups, and changes nothing. */
  lemma CacheHitOutcome(env: Env, body: Body, rows: seq<ProfileRow>,
                        plans: map<UserId, Json>, svc: Services,
                        parse: string -> Result<Json, string>, stored: Json)
    requires StoreConfigured(env)
    requires CachedPlan(plans, ResolveUserId(body, rows, svc.profileQuery), svc.planQuery) == Some(stored)
    ensures var o := Exchange(env, Success(body), rows, plans, svc, parse);
      o.response == Response(200, stored) && o.plans == plans && ProviderCall !in o.calls
  {
  }

  /** A successful generation for a known user, with a successful write, stores the returned plan. */
  lemma GenerateStores(groqApiKey: string, plans: map<UserId, Json>, userId: UserId,
                       before: seq<Call>, svc: Services, parse: string -> Result<Json, string>)
    requires userId != "" && svc.upsertSucceeds
    requires Generate(groqApiKey, plans, userId, before, svc, parse).response.status == 200
    ensures var o := Generate(groqApiKey, plans, userId, before, svc, parse);
      userId in o.plans && o.plans[userId] == o.response.body
  {
  }

  /** After a successful exchange that saved its plan, a lookup of that user's plan finds the returned plan. */
  lemma SuccessLeavesPlanStored(env: Env, body: Body, rows: seq<ProfileRow>,
                                plans: map<UserId, Json>, svc: Services,
                                parse: string -> Result<Json, string>)
    requires StoreConfigured(env) && env.groqApiKey != ""
    requires ResolveUserId(body, rows, svc.profileQuery) != ""
    requires svc.upsertSucceeds
    requires var o := Exchange(env, Success(body), rows, plans, svc, parse);
      o.response.status == 200 && Truthy(o.response.body)
    ensures var u := ResolveUserId(body, rows, svc.profileQuery);
      var o := Exchange(env, Success(body), rows, plans, svc, parse);
      CachedPlan(o.plans, u, Answered) == Some(o.response.body)
  {
    var u := ResolveUserId(body, rows, svc.profileQuery);
    if CachedPlan(plans, u, svc.planQuery).None? {
      MissOutcome(env, body, rows, plans, svc, parse);
      GenerateStores(env.groqApiKey, plans, u, LookupCalls(body) + CacheCalls(u), svc, parse);
    }
  }

  /**
   * A second identical request after a saved generation is served from the
   * store: same response, and the provider is not called again.
   */
  lemma RepeatRequestServedFromStore(env: Env, body: Body, rows: seq<ProfileRow>,
                                     plans: map<UserId, Json>, svc: Services, svc2: Services,
                                     parse: string -> Result<Json, string>)
    requires StoreConfigured(env) && env.groqApiKey != ""
    requires ResolveUserId(body, rows, svc.profileQuery) != ""
    requires svc2.profileQuery == svc.profileQuery && svc2.planQuery == Answered
    requires svc.upsertSucceeds
    requires var o := Exchange(env, Success(body), rows, plans, svc, parse);
      o.response.status == 200 && Truthy(o.response.body)
    ensures var o1 := Exchange(env, Success(body), rows, plans, svc, parse);
      var o2 := Exchange(env, Success(body), rows, o1.plans, svc2, parse);
      && o2.response == o1.response
      && o2.plans == o1.plans
      && ProviderCall !in o2.calls
  {
    var o1 := Exchange(env, Success(body), rows, plans, svc, parse);
    SuccessLeavesPlanStored(env, body, rows, plans, svc, parse);
    CacheHitOutcome(env, body, rows, o1.plans, svc2, parse, o1.response.body);
  }
}
