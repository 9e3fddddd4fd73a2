/**
 * Read-aloud on the plan page (src/app/plan/page.tsx): the workout speech
 * string, the per-day chunks of diet speech, the voice preference, and the
 * `speaking` flag driven by `handleRead`. The browser speech engine is seen
 * only through the actions the page performs on it and the end events it
 * waits for, kept in order in `speech`.
 */
module ReadAloud {
  import opened Common
  import opened PlanTypes

  // ---------------------------------------------------------------------
  // Workout speech
  // ---------------------------------------------------------------------

  /** "Day d. title. description. " */
  function DaySegment(d: WorkoutDay): string {
    "Day " + IntToDecimal(d.day) + ". " + d.title + ". " + d.description + ". "
  }

  /** "Exercise: name. " */
  function ExerciseLine(ex: Exercise): string {
    "Exercise: " + ex.name + ". "
  }

  /** "S sets of R. Rest T. " */
  function SetsLine(ex: Exercise): string {
    ex.sets + " sets of " + ex.reps + ". Rest " + ex.rest + ". "
  }

  /** "Note: n. " for truthy notes, nothing otherwise. */
  function NoteLine(ex: Exercise): string {
    if HasText(ex.notes) then "Note: " + ex.notes.value + ". " else ""
  }

  function ExerciseSegment(ex: Exercise): string {
    ExerciseLine(ex) + SetsLine(ex) + NoteLine(ex)
  }

  function ExercisesSpeech(exs: seq<Exercise>): string {
    if exs == [] then "" else ExercisesSpeech(exs[..|exs| - 1]) + ExerciseSegment(exs[|exs| - 1])
  }

  function DaySpeech(d: WorkoutDay): string {
    DaySegment(d) + ExercisesSpeech(d.exercises)
  }

  /** The text read for the workout tab: each day's speech, in order. */
  function WorkoutSpeech(days: seq<WorkoutDay>): string {
    if days == [] then "" else WorkoutSpeech(days[..|days| - 1]) + DaySpeech(days[|days| - 1])
  }

  /** Workout speech distributes over concatenation of day lists. */
  lemma {:induction false} WorkoutSpeechAppend(a: seq<WorkoutDay>, b: seq<WorkoutDay>)
    ensures WorkoutSpeech(a + b) == WorkoutSpeech(a) + WorkoutSpeech(b)
    decreases |b|
  {
    if b == [] {
      assert a + b == a;
    } else {
      var b' := b[..|b| - 1];
      var last := b[|b| - 1];
      assert (a + b)[..|a + b| - 1] == a + b';
      assert (a + b)[|a + b| - 1] == last;
      WorkoutSpeechAppend(a, b');
      calc {
        WorkoutSpeech(a + b);
        WorkoutSpeech(a + b') + DaySpeech(last);
        WorkoutSpeech(a) + WorkoutSpeech(b') + DaySpeech(last);
        { ConcatAssoc(WorkoutSpeech(a), WorkoutSpeech(b'), DaySpeech(last)); }
        WorkoutSpeech(a) + (WorkoutSpeech(b') + DaySpeech(last));
        WorkoutSpeech(a) + WorkoutSpeech(b);
      }
    }
  }

  /** A single day speaks as its segment followed by its exercises' segments. */
  lemma WorkoutSpeechOneDay(d: WorkoutDay)
    ensures WorkoutSpeech([d]) == DaySegment(d) + ExercisesSpeech(d.exercises)
  {
    assert [d][..0] == [];
  }

  /** `buildWorkoutSpeech`: append to `spoken` day by day, exercise by exercise. */
  method BuildWorkoutSpeech(days: seq<WorkoutDay>) returns (spoken: string)
    ensures spoken == WorkoutSpeech(days)
  {
    spoken := "";
    for i := 0 to |days|
      invariant spoken == WorkoutSpeech(days[..i])
    {
      var day := days[i];
      ghost var before := spoken;
      spoken := spoken + DaySegment(day);
      spoken := AppendExercises(spoken, day.exercises);
      ConcatAssoc(before, DaySegment(day), ExercisesSpeech(day.exercises));
      WorkoutSpeechStep(days, i);
    }
    assert days[..|days|] == days;
  }

  /** The inner loop of the workout text: one segment per exercise, appended in order. */
  method AppendExercises(head: string, exs: seq<Exercise>) returns (spoken: string)
    ensures spoken == head + ExercisesSpeech(exs)
  {
    spoken := head;
    for j := 0 to |exs|
      invariant spoken == head + ExercisesSpeech(exs[..j])
    {
      spoken := AppendExercise(spoken, exs[j]);
      ExercisesSpeechStep(exs, j);
      ConcatAssoc(head, ExercisesSpeech(exs[..j]), ExerciseSegment(exs[j]));
    }
    assert exs[..|exs|] == exs;
  }

  /** One exercise: name, sets and reps, then the note when there is one. */
  method AppendExercise(prior: string, ex: Exercise) returns (spoken: string)
    ensures spoken == prior + ExerciseSegment(ex)
  {
    spoken := prior + ExerciseLine(ex);
    spoken := spoken + SetsLine(ex);
    if HasText(ex.notes) {
      spoken := spoken + NoteLine(ex);
    }
    ConcatAssoc(prior + ExerciseLine(ex), SetsLine(ex), NoteLine(ex));
    ConcatAssoc(prior, ExerciseLine(ex), SetsLine(ex) + NoteLine(ex));
    ConcatAssoc(ExerciseLine(ex), SetsLine(ex), NoteLine(ex));
  }

  lemma ExercisesSpeechStep(exs: seq<Exercise>, j: nat)
    requires j < |exs|
    ensures ExercisesSpeech(exs[..j + 1]) == ExercisesSpeech(exs[..j]) + ExerciseSegment(exs[j])
  {
    assert exs[..j + 1][..j] == exs[..j];
  }

  lemma WorkoutSpeechStep(days: seq<WorkoutDay>, i: nat)
    requires i < |days|
    ensures WorkoutSpeech(days[..i + 1]) == WorkoutSpeech(days[..i]) + DaySpeech(days[i])
  {
    assert days[..i + 1][..i] == days[..i];
  }

  // ---------------------------------------------------------------------
  // Diet speech chunks
  // ---------------------------------------------------------------------

  function DayHeaderChunk(d: DietDay): string {
    "Day " + IntToDecimal(d.day) + ". Meals for the day."
  }

  /** "type. title. description" with a missing description read as "". */
  function MealTitleChunk(m: Meal): string {
    m.kind + ". " + m.title + ". " + TextOrEmpty(m.description)
  }

  function MealMacroChunk(m: Meal): string {
    "Calories " + m.calories + ". Protein " + m.protein + ". Carbs " + m.carbs + ". Fats " + m.fats + "."
  }

  function MealChunks(meals: seq<Meal>): seq<string> {
    if meals == [] then []
    else MealChunks(meals[..|meals| - 1]) + [MealTitleChunk(meals[|meals| - 1]), MealMacroChunk(meals[|meals| - 1])]
  }

  /** The chunks of one diet day: a header, then a title and a macro chunk per meal. */
  function DayChunks(d: DietDay): seq<string> {
    [DayHeaderChunk(d)] + MealChunks(d.meals)
  }

  /** All chunks of the diet, day after day. */
  function DietChunks(days: seq<DietDay>): seq<string> {
    if days == [] then [] else DietChunks(days[..|days| - 1]) + DayChunks(days[|days| - 1])
  }

  lemma DietChunksStep(days: seq<DietDay>, i: nat)
    requires i < |days|
    ensures DietChunks(days[..i + 1]) == DietChunks(days[..i]) + DayChunks(days[i])
  {
    assert days[..i + 1][..i] == days[..i];
  }

  /** Meal `k` contributes chunks `2k` (title) and `2k+1` (macros), and nothing else is added. */
  lemma {:induction false} MealChunksLayout(meals: seq<Meal>)
    ensures |MealChunks(meals)| == 2 * |meals|
    ensures forall k :: 0 <= k < |meals| ==>
      MealChunks(meals)[2 * k] == MealTitleChunk(meals[k])
      && MealChunks(meals)[2 * k + 1] == MealMacroChunk(meals[k])
  {
    if meals != [] {
      var init := meals[..|meals| - 1];
      MealChunksLayout(init);
      forall k | 0 <= k < |meals| - 1 ensures meals[k] == init[k] { }
    }
  }

  /**
   * Each diet day speaks exactly 1 + 2 * |meals| chunks: the header, then for
   * each meal in order its title chunk followed by its macro chunk.
   */
  lemma DayChunksLayout(d: DietDay)
    ensures |DayChunks(d)| == 1 + 2 * |d.meals|
    ensures DayChunks(d)[0] == "Day " + IntToDecimal(d.day) + ". Meals for the day."
    ensures forall k :: 0 <= k < |d.meals| ==>
      DayChunks(d)[1 + 2 * k] == MealTitleChunk(d.meals[k])
      && DayChunks(d)[2 + 2 * k] == MealMacroChunk(d.meals[k])
  {
    MealChunksLayout(d.meals);
  }

  /** The chunk list `speakDiet` builds for one day, pushing as it goes. */
  method BuildDayChunks(day: DietDay) returns (chunks: seq<string>)
    ensures chunks == DayChunks(day)
  {
    chunks := [];
    chunks := chunks + ["Day " + IntToDecimal(day.day) + ". Meals for the day."];
    for i := 0 to |day.meals|
      invariant chunks == [DayHeaderChunk(day)] + MealChunks(day.meals[..i])
    {
      var meal := day.meals[i];
      chunks := chunks + [meal.kind + ". " + meal.title + ". " + TextOrEmpty(meal.description)];
      chunks := chunks + ["Calories " + meal.calories + ". Protein " + meal.protein
                          + ". Carbs " + meal.carbs + ". Fats " + meal.fats + "."];
      assert day.meals[..i + 1][..i] == day.meals[..i];
    }
    assert day.meals[..|day.meals|] == day.meals;
  }

  // ---------------------------------------------------------------------
  // Voices and the speech engine
  // ---------------------------------------------------------------------

  datatype Voice = Voice(name: string)

  /** What the page does to the speech engine, and the end events it waits for. */
  datatype SpeechAction = Cancel | Speak(text: string, voice: Option<Voice>) | Ended

  /** `voices.find((v) => v.name.includes(word))` */
  function FindVoice(voices: seq<Voice>, word: string): (r: Option<Voice>)
    ensures r.None? <==> forall i :: 0 <= i < |voices| ==> !Contains(voices[i].name, word)
    ensures r.Some? ==> exists i :: 0 <= i < |voices| && voices[i] == r.value
                          && Contains(voices[i].name, word)
                          && forall j :: 0 <= j < i ==> !Contains(voices[j].name, word)
  {
    if voices == [] then None
    else if Contains(voices[0].name, word) then Some(voices[0])
    else
      var r := FindVoice(voices[1..], word);
      assert forall i :: 1 <= i < |voices| ==> voices[i] == voices[1..][i - 1];
      r
  }

  /** `find("Male") || find("Female") || voices[0]`; `None` when there is no voice. */
  function PreferredVoice(voices: seq<Voice>): Option<Voice> {
    match FindVoice(voices, "Male")
    case Some(v) => Some(v)
    case None =>
      match FindVoice(voices, "Female")
      case Some(v) => Some(v)
      case None => if voices == [] then None else Some(voices[0])
  }

  /**
   * The voice preference: the first voice whose name contains "Male", else the
   * first containing "Female", else the first voice; no voice for an empty list.
   */
  lemma PreferredVoiceChoice(voices: seq<Voice>)
    ensures var r := PreferredVoice(voices);
      && (r.None? <==> voices == [])
      && (forall i :: (0 <= i < |voices| && Contains(voices[i].name, "Male")
                      && forall j :: 0 <= j < i ==> !Contains(voices[j].name, "Male")) ==> r == Some(voices[i]))
      && ((forall i :: 0 <= i < |voices| ==> !Contains(voices[i].name, "Male")) ==>
            forall i :: (0 <= i < |voices| && Contains(voices[i].name, "Female")
                        && forall j :: 0 <= j < i ==> !Contains(voices[j].name, "Female")) ==> r == Some(voices[i]))
      && ((voices != [] && forall i :: 0 <= i < |voices| ==>
             !Contains(voices[i].name, "Male") && !Contains(voices[i].name, "Female")) ==> r == Some(voices[0]))
  {
    var r := PreferredVoice(voices);
    forall i | 0 <= i < |voices| && Contains(voices[i].name, "Male")
               && (forall j :: 0 <= j < i ==> !Contains(voices[j].name, "Male"))
      ensures r == Some(voices[i])
    {
      var m := FindVoice(voices, "Male");
      var k :| 0 <= k < |voices| && voices[k] == m.value && Contains(voices[k].name, "Male")
               && forall j :: 0 <= j < k ==> !Contains(voices[j].name, "Male");
      assert k == i;
    }
    if forall i :: 0 <= i < |voices| ==> !Contains(voices[i].name, "Male") {
      forall i | 0 <= i < |voices| && Contains(voices[i].name, "Female")
                 && (forall j :: 0 <= j < i ==> !Contains(voices[j].name, "Female"))
        ensures r == Some(voices[i])
      {
        var f := FindVoice(voices, "Female");
        var k :| 0 <= k < |voices| && voices[k] == f.value && Contains(voices[k].name, "Female")
                 && forall j :: 0 <= j < k ==> !Contains(voices[j].name, "Female");
        assert k == i;
      }
    }
  }

  /** Speaking chunks one at a time: each is started, then its end awaited, in list order. */
  function Utterances(chunks: seq<string>, voice: Option<Voice>): seq<SpeechAction> {
    if chunks == [] then []
    else Utterances(chunks[..|chunks| - 1], voice) + [Speak(chunks[|chunks| - 1], voice), Ended]
  }

  lemma {:induction false} UtterancesAppend(a: seq<string>, b: seq<string>, voice: Option<Voice>)
    ensures Utterances(a + b, voice) == Utterances(a, voice) + Utterances(b, voice)
    decreases |b|
  {
    if b == [] {
      assert a + b == a;
    } else {
      var b' := b[..|b| - 1];
      assert (a + b)[..|a + b| - 1] == a + b';
      assert (a + b)[|a + b| - 1] == b[|b| - 1];
      UtterancesAppend(a, b', voice);
      var step := [Speak(b[|b| - 1], voice), Ended];
      calc {
        Utterances(a + b, voice);
        Utterances(a + b', voice) + step;
        Utterances(a, voice) + Utterances(b', voice) + step;
        { ConcatAssoc(Utterances(a, voice), Utterances(b', voice), step); }
        Utterances(a, voice) + (Utterances(b', voice) + step);
        Utterances(a, voice) + Utterances(b, voice);
      }
    }
  }

  lemma UtterancesStep(chunks: seq<string>, j: nat, voice: Option<Voice>)
    requires j < |chunks|
    ensures Utterances(chunks[..j + 1], voice) == Utterances(chunks[..j], voice) + [Speak(chunks[j], voice), Ended]
  {
    assert chunks[..j + 1][..j] == chunks[..j];
  }

  /**
   * Chunk `k` is started at step `2k` and its end awaited at step `2k+1`, so a
   * chunk starts only after the previous one has ended.
   */
  lemma {:induction false} UtterancesInOrder(chunks: seq<string>, voice: Option<Voice>)
    ensures |Utterances(chunks, voice)| == 2 * |chunks|
    ensures forall k :: 0 <= k < |chunks| ==>
      Utterances(chunks, voice)[2 * k] == Speak(chunks[k], voice)
      && Utterances(chunks, voice)[2 * k + 1] == Ended
  {
    if chunks != [] {
      var init := chunks[..|chunks| - 1];
      UtterancesInOrder(init, voice);
      forall k | 0 <= k < |chunks| - 1 ensures chunks[k] == init[k] { }
    }
  }

  datatype Tab = WorkoutTab | DietTab

  /** The plan page's read-aloud state. */
  class PlanPage {
    var plan: Option<Plan>
    var tab: Tab
    var speaking: bool
    var speech: seq<SpeechAction>

    /** The page after it loaded the stored plan (if any). */
    constructor (saved: Option<Plan>)
      ensures plan == saved && tab == WorkoutTab && !speaking && speech == []
    {
      plan := saved;
      tab := WorkoutTab;
      speaking := false;
      speech := [];
    }

    /** The tab buttons. */
    method SelectTab(t: Tab)
      modifies this`tab
      ensures tab == t
    {
      tab := t;
    }

    /** `speakText`: cancel, then speak the whole text with the preferred voice. */
    method SpeakText(text: string, voices: seq<Voice>)
      modifies this`speaking, this`speech
      ensures speaking
      ensures speech == old(speech) + [Cancel, Speak(text, PreferredVoice(voices))]
    {
      speech := speech + [Cancel];
      var best := PreferredVoice(voices);
      speaking := true;
      speech := speech + [Speak(text, best)];
    }

    /** The `onend` handler of the workout utterance. */
    method WorkoutSpeechEnded()
      modifies this`speaking, this`speech
      ensures !speaking && speech == old(speech) + [Ended]
    {
      speech := speech + [Ended];
      speaking := false;
    }

    /**
     * `speakDiet`: cancel, set `speaking`, then speak each day's chunks one by
     * one, waiting for each to end; `speaking` is cleared after the last. A
     * diet without days throws after `speaking` was set, which then stays set.
     */
    method SpeakDiet(diet: Option<Diet>, voices: seq<Voice>)
      modifies this`speaking, this`speech
      ensures diet.Some? && diet.value.days.Some? ==>
        !speaking && speech == old(speech) + [Cancel] + Utterances(DietChunks(diet.value.days.value), PreferredVoice(voices))
      ensures diet.None? || diet.value.days.None? ==> speaking && speech == old(speech) + [Cancel]
    {
      speech := speech + [Cancel];
      speaking := true;
      var voice := PreferredVoice(voices);
      if diet.None? || diet.value.days.None? {
        return;
      }
      var days := diet.value.days.value;
      ghost var base := speech;
      assert days[..0] == [];
      for i := 0 to |days|
        invariant speaking
        invariant speech == base + Utterances(DietChunks(days[..i]), voice)
      {
        ghost var done := DietChunks(days[..i]);
        var chunks := BuildDayChunks(days[i]);
        SpeakChunks(chunks, voice);
        ConcatAssoc(base, Utterances(done, voice), Utterances(chunks, voice));
        UtterancesAppend(done, chunks, voice);
        DietChunksStep(days, i);
      }
      assert days[..|days|] == days;
      speaking := false;
    }

    /** The inner loop of `speakDiet`: speak each chunk and wait for its end before the next. */
    method SpeakChunks(chunks: seq<string>, voice: Option<Voice>)
      modifies this`speech
      ensures speech == old(speech) + Utterances(chunks, voice)
    {
      ghost var base := speech;
      assert chunks[..0] == [];
      for j := 0 to |chunks|
        invariant speech == base + Utterances(chunks[..j], voice)
      {
        ghost var prior := Utterances(chunks[..j], voice);
        speech := speech + [Speak(chunks[j], voice)];
        speech := speech + [Ended];
        ConcatAssoc(base + prior, [Speak(chunks[j], voice)], [Ended]);
        ConcatAssoc(base, prior, [Speak(chunks[j], voice), Ended]);
        UtterancesStep(chunks, j, voice);
      }
      assert chunks[..|chunks|] == chunks;
    }

    /** `stopSpeaking` */
    method StopSpeaking()
      modifies this`speaking, this`speech
      ensures !speaking && speech == old(speech) + [Cancel]
    {
      speech := speech + [Cancel];
      speaking := false;
    }

    /**
     * `handleRead`: nothing without a plan; while speaking, only stop; else read
     * the workout text on the workout tab and the diet chunks on the diet tab.
     * A workout without days throws before anything is spoken.
     */
    method HandleRead(voices: seq<Voice>)
      modifies this`speaking, this`speech
      ensures old(plan).None? ==> speaking == old(speaking) && speech == old(speech)
      ensures old(plan).Some? && old(speaking) ==> !speaking && speech == old(speech) + [Cancel]
      ensures old(plan).Some? && !old(speaking) && tab == WorkoutTab ==>
        var w := plan.value.workout;
        if w.None? || w.value.days.None? then !speaking && speech == old(speech)
        else speaking && speech == old(speech) + [Cancel, Speak(WorkoutSpeech(w.value.days.value), PreferredVoice(voices))]
      ensures old(plan).Some? && !old(speaking) && tab == DietTab ==>
        var d := plan.value.diet;
        if d.None? || d.value.days.None? then speaking && speech == old(speech) + [Cancel]
        else !speaking && speech == old(speech) + [Cancel] + Utterances(DietChunks(d.value.days.value), PreferredVoice(voices))
    {
      if plan.None? {
        return;
      }
      if speaking {
        StopSpeaking();
        return;
      }
      if tab == WorkoutTab {
        var w := plan.value.workout;
        if w.None? || w.value.days.None? {
          return;
        }
        var text := BuildWorkoutSpeech(w.value.days.value);
        SpeakText(text, voices);
      } else {
        SpeakDiet(plan.value.diet, voices);
      }
    }
  }
}
