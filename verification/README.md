# AI fitness coach — a Dafny model of its core

The application collects a fitness profile on a setup page. It saves the profile to a hosted
store and asks a plan route for a workout and diet plan. The route looks up the user, serves a
stored plan or generates one with a chat-completion provider, and cleans and parses the reply.
It then saves the plan under the user's id. The plan page reads the plan aloud through the
browser's speech engine. The workout tab splits tips into two cards, opens day cards and
fetches illustrative images from an image route.

The model covers:

- `Common` (common.dfy): JSON values, JavaScript truthiness, `Number(...)` on the values the
  client sends, number-to-text in templates, substring search, property lookup, HTTP responses.
- `Store` (store.dfy): the `user_fitness_profiles` table (rows in store order) and the
  `user_plans` table (a map by user id). Both are written by upsert on `user_id`. The class
  `Database` holds both tables.
- `TextCleanup` (text_cleanup.dfy): the chain that removes fences, control characters and
  surrounding whitespace from the provider's reply.
- `GeneratePlan` (generate_plan.dfy): the plan route. `Exchange` specifies one request as a
  function of the request, the store, the outcomes of the external calls and the JSON parser.
  `Post` is the handler written step by step over a `Database`. Its postcondition equals
  `Exchange`. A ghost log of external calls records lookups, the provider call and the write.
- `SetupPage` (setup_page.dfy): the setup page's form, saving flag, loading flag, error,
  `localStorage` and route as a class with `HandleChange`, `SaveProfile` and `HandleSubmit`.
- `PlanTypes` (plan_types.dfy): the plan as the client pages read it.
- `ReadAloud` (read_aloud.dfy): the workout speech text, the diet speech chunks, the voice
  preference, and the `speaking` flag with the actions sent to the speech engine.
- `WorkoutSection` (workout_section.dfy): the workout tab's fallback message, tip split and
  cards, day cards, per-exercise image and loading maps, and the client call to the image route.
- `GenerateImage` (generate_image.dfy): the image route's guards, prompt wrapping and error
  classification.

External services are inputs to the model:

- the store's query results (answered, error result, exception);
- the provider's reply or failure;
- whether the write succeeded;
- the session user;
- the `fetch` outcome;
- the available voices;
- the image provider's outcome.

`JSON.parse` is a function parameter. Environment variables are strings, and "" stands for
unset.

Some behaviour of the plan route that a reader might not expect:

- A client `user_id` is used only when the name+age lookup yields no id. It is never used
  after that lookup throws (`ResolutionSources`, `NameAgeMatchWins`).
- There is no 400 branch: every response is 200 or 500 (`ResponsesAre200Or500`).
- A falsy stored plan or a failed plan lookup leads to a new generation
  (`PlanLookupFailureIsMiss`).

## Model

| member | source | states |
|---|---|---|
| Common.LastMember | src/app/plan/components/WorkoutSection.tsx:25-26 | reading a property of a parsed object yields the last member with that key, and nothing exactly when no member has it |
| Common.ToNumber | src/app/api/generate-plan/route.ts:31 | `Number(body.age)` for the values the client sends: a digit string gives its value and "" gives 0, null and booleans give 0 or 1, integers are kept, and anything else is NaN (nothing) |
| Store.Upsert | src/app/page.tsx:84-103 | the profile table after an upsert on `user_id`: the saver's row is replaced in place, or the new row is appended when there is none (its properties are `UpsertMembers` and `UpsertKeyed`) |
| Store.UpsertMembers | src/app/page.tsx:84-103 | after an upsert on `user_id`, a row is present iff it is the new row or an old row of another user |
| Store.UpsertKeyed | src/app/page.tsx:84-103 | an upsert keeps one row per user id, stores the new row as the only row for its id, keeps every other user's row, and adds nothing else |
| Store.Database.UpsertProfile | src/app/page.tsx:84-103 | the profile table becomes the keyed upsert of the row and stays unique by user id |
| Store.Database.UpsertPlan | src/app/api/generate-plan/route.ts:158-169 | the plan table maps the user id to the new plan, and every other user's entry is unchanged |
| TextCleanup.StripJsonFences | src/app/api/generate-plan/route.ts:148 | `replace(/```json/gi, "")`: scans left to right and drops every non-overlapping case-insensitive match |
| TextCleanup.StripFences | src/app/api/generate-plan/route.ts:149 | `replace(/```/g, "")`: scans left to right and drops every non-overlapping "```" |
| TextCleanup.StripControls | src/app/api/generate-plan/route.ts:150 | `replace(/[\u0000-\u001F]+/g, "")`: drops every character in U+0000..U+001F and keeps the rest in order |
| TextCleanup.Trim | src/app/api/generate-plan/route.ts:151 | `trim()`: drops JavaScript whitespace and line terminators at both ends (its properties are `TrimShape`) |
| TextCleanup.Clean | src/app/api/generate-plan/route.ts:147-151 | the four steps in the source's order (its properties are `CleanShape`, `CleanKeepsPlainText`, `FencedReplyCleansToReply`) |
| TextCleanup.StripJsonFencesShorter | src/app/api/generate-plan/route.ts:148 | removing the case-insensitive json fences never lengthens the text |
| TextCleanup.StripFencesShorter | src/app/api/generate-plan/route.ts:149 | removing plain fences never lengthens the text |
| TextCleanup.StripControlsSound | src/app/api/generate-plan/route.ts:150 | the result has no character in U+0000..U+001F, is no longer than the input, and text without such characters is unchanged |
| TextCleanup.StripControlsAppend | src/app/api/generate-plan/route.ts:150 | the removal works per character: stripping a concatenation is the concatenation of the stripped parts, so every other character is kept in order |
| TextCleanup.TrimStartShape | src/app/api/generate-plan/route.ts:151 | trimming the start drops only whitespace and keeps the suffix of the text that does not begin with whitespace |
| TextCleanup.TrimEndShape | src/app/api/generate-plan/route.ts:151 | trimming the end drops only whitespace and keeps the prefix of the text that does not end with whitespace |
| TextCleanup.TrimShape | src/app/api/generate-plan/route.ts:151 | trimmed text is the contiguous piece left after dropping the leading whitespace; everything dropped before and after it is whitespace, it neither starts nor ends with whitespace, and it keeps having no control characters |
| TextCleanup.CleanShape | src/app/api/generate-plan/route.ts:147-151 | the cleaned reply has no control characters, no whitespace at either end, and is no longer than the raw reply |
| TextCleanup.FencedReplyCleansLikeBare | src/app/api/generate-plan/route.ts:147-149 | a reply wrapped in a json fence of any letter case and a closing fence cleans to the same text as the bare reply, if the reply has no backtick |
| TextCleanup.CleanKeepsPlainText | src/app/api/generate-plan/route.ts:147-151 | text with no backtick, no control character and no whitespace at either end cleans to itself |
| TextCleanup.FencedReplyCleansToReply | src/app/api/generate-plan/route.ts:147-153 | such a text wrapped in a json fence of any letter case and a closing fence cleans to exactly that text, so the parser sees the bare reply |
| TextCleanup.StripFencesLeavesNoFence | src/app/api/generate-plan/route.ts:149 | no three consecutive backticks remain anywhere after the global fence removal |
| TextCleanup.ControlsCanJoinAFence | src/app/api/generate-plan/route.ts:147-151 | control characters are removed after fences are, so a control character between backticks leaves a fence in the cleaned text |
| GeneratePlan.FirstMatch | src/app/api/generate-plan/route.ts:27-33 | the single-row lookup returns nothing iff no row matches name and numeric age, and otherwise returns the first matching row in store order |
| GeneratePlan.ResolveUserId | src/app/api/generate-plan/route.ts:22-48 | the user id the resolution block ends with: when a truthy name and a truthy or zero age ask for a lookup, the first matching row's id if it is non-empty, "" after an exception, and otherwise the client's `user_id` (its properties are `ResolutionSources` and `NameAgeMatchWins`) |
| GeneratePlan.CachedPlan | src/app/api/generate-plan/route.ts:50-69 | the stored plan served for a resolved user: present only for a non-empty id, an answered lookup and a truthy stored plan |
| GeneratePlan.Exchange | src/app/api/generate-plan/route.ts:6-186 | one request as a function of the body, the store and the external outcomes: response, new plan table and the calls issued (its properties are the `GeneratePlan` lemmas below) |
| GeneratePlan.ResolveUser | src/app/api/generate-plan/route.ts:22-48 | the resolution block yields the id `ResolveUserId` specifies and issues a profile lookup only for a truthy name with a truthy or zero age |
| GeneratePlan.Post | src/app/api/generate-plan/route.ts:6-186 | the handler's response, the new plan table and the external calls it issues are those of `Exchange` for the request, the store and the call outcomes |
| GeneratePlan.GenerateAndSave | src/app/api/generate-plan/route.ts:74-181 | the generation half of the handler (key check, provider call, clean-up, parse, write) produces the response, plan table and calls that `Generate` specifies |
| GeneratePlan.MissingStoreConfigStopsEarly | src/app/api/generate-plan/route.ts:13-18 | without a store URL or service key the response is 500 "Server configuration error", with no call and no write |
| GeneratePlan.NameAgeMatchWins | src/app/api/generate-plan/route.ts:26-45 | the first row matching name and age decides the user id when its id is non-empty, whatever `user_id` the client sent |
| GeneratePlan.ResolutionSources | src/app/api/generate-plan/route.ts:22-48 | the id comes from the client only without a lookup, after a lookup error, or when no earlier row matched with an id; an exception leaves no id; any other id belongs to a matching row |
| GeneratePlan.ProfileLookupErrorIsNoMatch | src/app/api/generate-plan/route.ts:35-45 | an error result from the profile lookup gives the same outcome as an empty profile table |
| GeneratePlan.ProfileLookupThrowIsNoIdentity | src/app/api/generate-plan/route.ts:24-48 | an exception in the profile lookup gives the outcome of a request with no match and no client `user_id` |
| GeneratePlan.PlanLookupFailureIsMiss | src/app/api/generate-plan/route.ts:51-69 | a failed plan lookup gives the response and calls of a store without that user's plan |
| GeneratePlan.CacheHitOutcome | src/app/api/generate-plan/route.ts:51-65 | when the resolved user's plan lookup finds a truthy plan, the response is 200 with that plan, the plan table is unchanged and the provider is not called |
| GeneratePlan.StoredPlanServedVerbatim | src/app/api/generate-plan/route.ts:51-65 | a resolved user's truthy stored plan is returned with 200, with no provider call and no write, even without a provider key |
| GeneratePlan.UnparsableReplyFails | src/app/api/generate-plan/route.ts:145-185 | a reply that does not parse after cleaning gives 500 with the parser's message (or "Generation failed"), and nothing is written or attempted |
| GeneratePlan.EmptyReplyFails | src/app/api/generate-plan/route.ts:145-153 | missing reply content cleans to "" and the request fails with 500, with nothing written |
| GeneratePlan.FreshPlanReturnedAndKeyed | src/app/api/generate-plan/route.ts:153-181 | a parsed plan is returned with 200; it is written under the resolved id only, and stored only when the write succeeds; without an id no write is attempted; other users' plans are kept |
| GeneratePlan.GenerateStores | src/app/api/generate-plan/route.ts:153-181 | a 200 generation for a known user with a successful write leaves the returned plan stored under that user |
| GeneratePlan.SuccessLeavesPlanStored | src/app/api/generate-plan/route.ts:51-181 | after a successful exchange for a known user whose write succeeded, a lookup of that user's plan finds exactly the returned plan |
| GeneratePlan.ResponsesAre200Or500 | src/app/api/generate-plan/route.ts:6-186 | every response is 200 or 500; a 500 has an `{error}` body; a 200 carries the stored plan or what the parser made of the cleaned reply |
| GeneratePlan.OtherUsersUntouched | src/app/api/generate-plan/route.ts:158-179 | the plan table changes at most at the resolved user id |
| GeneratePlan.RepeatRequestServedFromStore | src/app/api/generate-plan/route.ts:51-181 | after a saved generation, the same request is answered from the store with the same response and no provider call |
| SetupPage.SetupPage.constructor | src/app/page.tsx:42-58 | the page starts with every form field "", not loading, not saving and without an error |
| SetupPage.SetupPage.HandleChange | src/app/page.tsx:60-65 | the named field takes the new value and every other field is kept |
| SetupPage.SetupPage.SaveProfile | src/app/page.tsx:74-114 | the save succeeds iff there is a session user and the store reports no error; without a user the error is "Not logged in"; a store error becomes the page error; only a success upserts the form under the user's id; saving ends false |
| SetupPage.PlanReply | src/app/page.tsx:130-146 | only an ok status with a readable body yields a plan, which is that body; a non-ok status reads "Failed to generate plan"; a network error or an unreadable body shows its own message, or "Something went wrong" when that is empty; no message shown is blank |
| SetupPage.SetupPage.ReceivePlan | src/app/page.tsx:130-146 | a plan is kept under "ai-fitness-plan" and the page moves to /plan; a failure sets the message and keeps storage and route |
| SetupPage.SetupPage.HandleSubmit | src/app/page.tsx:119-148 | the plan request is sent only after a successful save; an ok, readable response is stored under "ai-fitness-plan" and routes to /plan; a non-ok status, unreadable body or network error sets the matching error; loading ends false |
| SetupPage.SavedProfileIsResolved | src/app/page.tsx:84-103 | after the setup page saves a form, the plan route resolves the same form to the saver's id, unless another user's row has the same name and age |
| ReadAloud.WorkoutSpeechAppend | src/app/plan/page.tsx:119-132 | workout speech distributes over concatenation of day lists |
| ReadAloud.WorkoutSpeechOneDay | src/app/plan/page.tsx:122-129 | one day speaks as its "Day d. title. description. " segment followed by its exercises' segments |
| ReadAloud.BuildWorkoutSpeech | src/app/plan/page.tsx:119-132 | the nested loops build exactly the workout speech of the day list, which is "" for no days |
| ReadAloud.AppendExercises | src/app/plan/page.tsx:124-128 | the inner loop appends exactly the exercises' segments, in order, to the text built so far |
| ReadAloud.MealChunksLayout | src/app/plan/page.tsx:83-89 | meal k yields chunks 2k (type, title, description) and 2k+1 (macros), and nothing else |
| ReadAloud.DayChunksLayout | src/app/plan/page.tsx:79-89 | a diet day yields 1 + 2·meals chunks: the day header, then title and macro chunks per meal in order |
| ReadAloud.BuildDayChunks | src/app/plan/page.tsx:79-89 | the pushes build exactly the day's chunk list |
| ReadAloud.FindVoice | src/app/plan/page.tsx:51-54 | the search finds nothing iff no voice name contains the word, and otherwise the first voice whose name does |
| ReadAloud.PreferredVoiceChoice | src/app/plan/page.tsx:50-54 | the voice is the first containing "Male", else the first containing "Female", else the first voice; there is no voice only for an empty list |
| ReadAloud.UtterancesAppend | src/app/plan/page.tsx:91-103 | speaking two chunk lists in turn equals speaking their concatenation |
| ReadAloud.UtterancesInOrder | src/app/plan/page.tsx:91-103 | chunk k is started at step 2k and its end is awaited at step 2k+1, so a chunk starts only after the previous one ended |
| ReadAloud.PlanPage.constructor | src/app/plan/page.tsx:29-37 | the page starts on the workout tab, not speaking, with the stored plan if any |
| ReadAloud.PlanPage.SelectTab | src/app/plan/page.tsx:258-269 | a tab button selects its tab |
| ReadAloud.PlanPage.SpeakText | src/app/plan/page.tsx:45-64 | the engine is cancelled, then the text is spoken with the preferred voice, and speaking becomes true |
| ReadAloud.PlanPage.WorkoutSpeechEnded | src/app/plan/page.tsx:60 | the end of the workout utterance clears speaking |
| ReadAloud.PlanPage.SpeakDiet | src/app/plan/page.tsx:69-108 | after a cancel, every diet chunk is spoken in order, each after the previous one ended, and speaking ends false; a diet without days leaves speaking true after the cancel |
| ReadAloud.PlanPage.SpeakChunks | src/app/plan/page.tsx:91-103 | each chunk is spoken and its end awaited before the next, so the engine receives exactly the utterances of the chunk list |
| ReadAloud.PlanPage.StopSpeaking | src/app/plan/page.tsx:110-113 | the engine is cancelled and speaking becomes false |
| ReadAloud.PlanPage.HandleRead | src/app/plan/page.tsx:137-148 | no plan: nothing happens; while speaking: only stop; otherwise the workout tab speaks the workout text (nothing for a workout without days) and the diet tab speaks the diet chunks |
| WorkoutSection.Half | src/app/plan/components/WorkoutSection.tsx:44 | the midpoint is the ceiling of half the tip count |
| WorkoutSection.SplitTips | src/app/plan/components/WorkoutSection.tsx:44-46 | the two tip lists concatenate to the tips, the first is equal in length or one longer, and missing tips give two empty lists |
| WorkoutSection.Card | src/app/plan/components/WorkoutSection.tsx:248 | a tips card renders nothing iff its list is empty, and otherwise lists every tip under its title |
| WorkoutSection.Render | src/app/plan/components/WorkoutSection.tsx:35-78 | the fallback "No workout data available." is shown iff the workout or its days are missing; otherwise the section shows the days, the motivation and exactly the tip cards `Cards` gives for the tips (see `CardsShown`) |
| WorkoutSection.CardsShown | src/app/plan/components/WorkoutSection.tsx:75-78 | no tips show no card, one tip shows only the workout card, and two or more show both cards whose tips are the tips in order |
| WorkoutSection.DayCard.constructor | src/app/plan/components/WorkoutSection.tsx:84-85 | a day card starts open iff it is day 1; an open card has a new exercise list with no images and nothing loading, a closed one has none |
| WorkoutSection.DayCard.Toggle | src/app/plan/components/WorkoutSection.tsx:103-124 | a header click flips the card; opening mounts a new, empty exercise list, closing drops the list with its images and loading flags |
| WorkoutSection.ImageUrl | src/app/plan/components/WorkoutSection.tsx:11-31 | the client yields an image exactly for an ok, readable response whose `image` property is a string, and that image is the property's value |
| WorkoutSection.ImageRoundTrip | src/app/plan/components/WorkoutSection.tsx:134-143 | an exercise's prompt is never rejected as missing; with a token the route receives the wrapped prompt, and the client holds the data URL iff the provider produced an image |
| WorkoutSection.ExerciseList.constructor | src/app/plan/components/WorkoutSection.tsx:130-131 | a list starts with no images and nothing loading |
| WorkoutSection.ExerciseList.StartImage | src/app/plan/components/WorkoutSection.tsx:135-139 | only exercise i is marked loading, and the prompt for its name is sent |
| WorkoutSection.ExerciseList.FinishImage | src/app/plan/components/WorkoutSection.tsx:141-142 | only index i changes: it holds the answered image and stops loading |
| WorkoutSection.ExerciseList.HandleImage | src/app/plan/components/WorkoutSection.tsx:134-143 | index i ends holding the client's result and not loading, and every other index of both maps is unchanged |
| GenerateImage.FinalPromptKeepsPrompt | src/app/api/generate-image/route.ts:27-31 | the provider's text is the fixed prefix, the user's prompt unaltered, then the fixed suffix, so different prompts give different texts |
| GenerateImage.ErrorResponse | src/app/api/generate-image/route.ts:51-69 | a provider error gives 403 with the license message iff its message contains "403", and otherwise 500 "Failed to generate image" |
| GenerateImage.Post | src/app/api/generate-image/route.ts:5-70 | an unreadable body gives 500; a missing or empty prompt gives 400 "Missing prompt" before the token is checked, and nothing else gives 400; a missing token gives 500; only then is the provider called with the wrapped prompt; 200 iff it produced an image, with body `{image: "data:image/jpeg;base64," + data}`; a provider error gets the `ErrorResponse` answer, so 403 only for a message containing "403" and otherwise 500 "Failed to generate image"; no other status |
| GenerateImage.SuccessIsDataUrl | src/app/api/generate-image/route.ts:44-49 | every 200 body is `{image}` with an image starting "data:image/jpeg;base64," |

## Left out

- Network, SDK and browser APIs are not modelled as such; their outcomes are inputs. This covers
  Supabase, Groq, HuggingFace, `fetch`, `localStorage`, the router and speech synthesis.
- The provider prompt text and `JSON.stringify(body)` inside it are left out; only the fact
  that a provider call happens is recorded.
- `JSON.parse` is an uninterpreted parameter. Its grammar is not modelled.
- JSON numbers are integers; fractional numbers are not modelled.
- Common.ToNumber: models `Number(...)` only for digit strings, "", null, booleans and integers.
  Whitespace, signs, decimals, hex and exponents in strings are read as NaN, and arrays are
  read as NaN too.
- The profile store's own coercion of a NaN or non-numeric age in `.eq("age", ...)` is not
  modelled; such a lookup matches no row.
- Request properties `name`, `user_id` and the image `prompt` are modelled as strings.
  Non-string values of these properties are not modelled.
- Characters are Unicode scalar values, not UTF-16 code units, so `trim`, the control-character
  range and template strings are modelled per scalar value.
- `updated_at: new Date()` in both upserts, console logging, `rate` and `pitch` are left out.
- The voice list is an input. How `loadVoices` waits for voices is left out.
- ReadAloud.PlanPage.HandleRead: runs each read to completion. A stop pressed while
  `speakDiet` is between chunks is not modelled, nor is the interleaving of the asynchronous
  handlers.
- WorkoutSection.ExerciseList.HandleImage: runs without interleaving.
  `StartImage`/`FinishImage` model the two halves for interleaved clicks.
- The exercise list's preview modal is left out. It is display state only.
- The plan page's loader (`JSON.parse` of the stored text) is left out; the page is built with
  the plan it loaded. PDF export is left out too.
- Rendering-only parts are left out: the diet tab (`DietSection`), the navigation bar, the
  image generator component, the profile, login and signup pages, and `src/lib/auth.ts`.
- Exercise lists, meal lists and day numbers are always present and well-typed in
  `PlanTypes`. A missing `exercises` or `meals` array, which throws in the source, is not
  modelled.
- The text fields the pages insert without testing them are always present strings in
  `PlanTypes`. These are a day's `title` and `description`, an exercise's `name`, `sets`, `reps`
  and `rest`, and a meal's `type`, `title`, `calories`, `protein`, `carbs` and `fats`. A
  missing one, which a template string prints as "undefined", is not modelled.
- WorkoutSection.ImageUrl: an `image` property that is not a string is read as no image.
- GeneratePlan.RowMatches reads a stored age through `Number(...)`, so a row saved with an
  empty age matches a lookup for age 0. How the store itself types and compares the `age`
  column is not modelled.
- Common.IntToDecimal prints every integer digit by digit. JavaScript template strings switch
  to exponent notation from 10^21 on (`1e+21`); numbers that large are not modelled.
- Base64 encoding of the image bytes is a library call. The model takes the encoded text as
  the provider's outcome and states only the data-URL prefix.
- SetupPage.SetupPage.SaveProfile: `saving` being true while the call is in flight is not
  observable in the model, which states only the final state.
