/**
 * The workout tab (src/app/plan/components/WorkoutSection.tsx): what the
 * section shows for a workout, the split of the tips into two cards, the
 * open/closed state of a day card, and the per-exercise image and loading
 * state of an exercise list together with the client call to the image route.
 */
module WorkoutSection {
  import opened Common
  import opened PlanTypes
  import GenerateImage

  const NoWorkoutData := "No workout data available."
  const WorkoutTipsTitle := "Workout Tips"
  const LifestyleTipsTitle := "Lifestyle Tips"

  /** A tips card: its title and the tips it lists. */
  datatype TipsCard = TipsCard(title: string, tips: seq<string>)

  /** What the section renders. */
  datatype SectionView =
    | NoData(message: string)
    | Section(days: seq<WorkoutDay>, motivation: string, cards: seq<TipsCard>)

  /** `Math.ceil(n / 2)` for a count `n`. */
  function Half(n: nat): (mid: nat)
    ensures n <= 2 * mid <= n + 1
  {
    (n + 1) / 2
  }

  /**
   * `workoutTips` and `lifestyleTips`: the first ceil(n/2) tips and the rest.
   * Together they are the tips in order, the first list is never shorter and
   * at most one longer, and missing tips give two empty lists.
   */
  function SplitTips(tips: Option<seq<string>>): (r: (seq<string>, seq<string>))
    ensures tips.None? ==> r.0 == [] && r.1 == []
    ensures tips.Some? ==> r.0 + r.1 == tips.value
    ensures |r.0| == |r.1| || |r.0| == |r.1| + 1
  {
    match tips
    case None => ([], [])
    case Some(t) =>
      var mid := Half(|t|);
      assert t[..mid] + t[mid..] == t;
      (t[..mid], t[mid..])
  }

  /** `TipsCard`: nothing for an empty list, otherwise a card listing every tip. */
  function Card(title: string, tips: seq<string>): (r: Option<TipsCard>)
    ensures r.None? <==> tips == []
    ensures r.Some? ==> r.value.title == title && r.value.tips == tips
  {
    if tips == [] then None else Some(TipsCard(title, tips))
  }

  /** The cards in the aside: the workout card, then the lifestyle card when it has tips. */
  function Cards(tips: Option<seq<string>>): seq<TipsCard> {
    var (workoutTips, lifestyleTips) := SplitTips(tips);
    var first := Card(WorkoutTipsTitle, workoutTips);
    var second := if |lifestyleTips| > 0 then Card(LifestyleTipsTitle, lifestyleTips) else None;
    (if first.Some? then [first.value] else []) + (if second.Some? then [second.value] else [])
  }

  /** `WorkoutSection`: the fallback message without a workout or its days, else the section. */
  function Render(workout: Option<Workout>): (v: SectionView)
    ensures v.NoData? <==> workout.None? || workout.value.days.None?
    ensures v.NoData? ==> v.message == NoWorkoutData
    ensures v.Section? ==> v.days == workout.value.days.value && v.motivation == workout.value.motivation
    ensures v.Section? ==> v.cards == Cards(workout.value.tips)
  {
    if workout.None? || workout.value.days.None? then NoData(NoWorkoutData)
    else Section(workout.value.days.value, workout.value.motivation, Cards(workout.value.tips))
  }

  /**
   * The tip cards shown for n tips: none for n = 0, only the workout card for
   * n = 1, both cards for n >= 2; the cards' tips are the tips in order.
   */
  lemma CardsShown(tips: Option<seq<string>>)
    ensures var n := if tips.Some? then |tips.value| else 0;
      && (n == 0 ==> Cards(tips) == [])
      && (n == 1 ==> Cards(tips) == [TipsCard(WorkoutTipsTitle, tips.value)])
      && (n >= 2 ==>
            && |Cards(tips)| == 2
            && Cards(tips)[0].title == WorkoutTipsTitle
            && Cards(tips)[1].title == LifestyleTipsTitle
            && Cards(tips)[0].tips + Cards(tips)[1].tips == tips.value)
  {
    var (w, l) := SplitTips(tips);
    if tips.Some? && |tips.value| == 1 {
      assert w == tips.value;
    }
  }

  /**
   * A day card: its exercise list is mounted only while the card is open.
   * Closing the card unmounts the list with its images and loading flags;
   * opening it mounts a new list that starts empty.
   */
  class DayCard {
    const day: WorkoutDay
    var open: bool
    var list: ExerciseList?

    /** Only the card of day 1 starts open. */
    constructor (day: WorkoutDay)
      ensures this.day == day && open == (day.day == 1)
      ensures open ==> list != null && fresh(list) && list.exercises == day.exercises
                       && list.images == map[] && list.loading == map[]
      ensures !open ==> list == null
    {
      this.day := day;
      open := day.day == 1;
      if day.day == 1 {
        list := new ExerciseList(day.exercises);
      } else {
        list := null;
      }
    }

    /** The header click: flip the card, mounting a new list or dropping the old one. */
    method Toggle()
      modifies this`open, this`list
      ensures open == !old(open)
      ensures open ==> list != null && fresh(list) && list.exercises == day.exercises
                       && list.images == map[] && list.loading == map[]
      ensures !open ==> list == null
    {
      open := !open;
      if open {
        list := new ExerciseList(day.exercises);
      } else {
        list := null;
      }
    }
  }

  /** The prompt `handleImage` sends for an exercise name. */
  function ImagePrompt(name: string): string {
    "Professional fitness photo of a person doing " + name + ", gym lighting, detailed muscles, instructional style"
  }

  /**
   * The client `generateImage`: the `image` property of an ok response's
   * body; `None` (null) for a failed fetch, a non-ok status, an unreadable
   * body, or a body without a string `image`.
   */
  function ImageUrl(fetched: FetchOutcome): (url: Option<string>)
    ensures url.Some? ==> fetched.Received? && IsOk(fetched.status) && fetched.body.Success?
    ensures url.Some? ==> Property(fetched.body.value, "image") == Some(JStr(url.value))
    ensures fetched.Received? && IsOk(fetched.status) && fetched.body.Success? ==>
      forall s :: Property(fetched.body.value, "image") == Some(JStr(s)) ==> url == Some(s)
  {
    match fetched
    case NetworkError(_) => None
    case Received(status, body) =>
      if !IsOk(status) || body.Failure? then None
      else
        match Property(body.value, "image")
        case Some(JStr(s)) => Some(s)
        case _ => None
  }

  /** The browser's view of a route response: its status, and the body read back as JSON. */
  function Delivered(r: Response): FetchOutcome {
    Received(r.status, Success(r.body))
  }

  /**
   * The exercise list and the image route together: the client's prompt is
   * never missing, so with a token the route is always called with the
   * wrapped prompt; the client then holds the data URL exactly when the
   * provider produced an image, and null otherwise.
   */
  lemma ImageRoundTrip(name: string, token: string, provider: GenerateImage.ProviderOutcome)
    ensures var x := GenerateImage.Post(Success(Some(ImagePrompt(name))), token, provider);
      && x.response.status != 400
      && (token != "" ==> x.sent == Some(GenerateImage.FinalPrompt(ImagePrompt(name))))
      && (token != "" && provider.Image? ==>
            ImageUrl(Delivered(x.response)) == Some(GenerateImage.DataUrlPrefix + provider.base64))
      && (token == "" || provider.ProviderError? ==> ImageUrl(Delivered(x.response)) == None)
  {
    var x := GenerateImage.Post(Success(Some(ImagePrompt(name))), token, provider);
    assert ImagePrompt(name) != "" by {
      assert |ImagePrompt(name)| > 0;
    }
    if token != "" && provider.Image? {
      var ms := [("image", JStr(GenerateImage.DataUrlPrefix + provider.base64))];
      assert x.response.body == JObj(ms);
      assert ms[|ms| - 1].0 == "image";
    }
    if token == "" || provider.ProviderError? {
      assert x.response.body.members[0].0 == "error";
      assert x.response.body.members[..0] == [];
    }
  }

  /** An exercise list: the image and loading flags it holds per exercise index. */
  class ExerciseList {
    const exercises: seq<Exercise>
    var images: map<int, Option<string>>
    var loading: map<int, bool>
    /** The prompts sent to the image route, in order. */
    ghost var prompts: seq<string>

    constructor (exercises: seq<Exercise>)
      ensures this.exercises == exercises && images == map[] && loading == map[] && prompts == []
    {
      this.exercises := exercises;
      images := map[];
      loading := map[];
      prompts := [];
    }

    /** The camera button shows the hourglass while `loading[i]` is true. */
    predicate IsLoading(i: int)
      reads this
    {
      i in loading && loading[i]
    }

    /** The first half of `handleImage`: mark exercise `i` as loading and send its prompt. */
    method StartImage(i: int, name: string)
      modifies this`loading, this`prompts
      ensures loading == old(loading)[i := true]
      ensures prompts == old(prompts) + [ImagePrompt(name)]
    {
      loading := loading[i := true];
      prompts := prompts + [ImagePrompt(name)];
    }

    /** The second half of `handleImage`, once `generateImage` answered `url`. */
    method FinishImage(i: int, url: Option<string>)
      modifies this`images, this`loading
      ensures images == old(images)[i := url]
      ensures loading == old(loading)[i := false]
    {
      images := images[i := url];
      loading := loading[i := false];
    }

    /**
     * `handleImage(i, name)` when no other click interleaves: only index `i`
     * changes; it ends not loading and holds what the client made of the
     * route's answer.
     */
    method HandleImage(i: int, name: string, fetched: FetchOutcome)
      modifies this`images, this`loading, this`prompts
      ensures images == old(images)[i := ImageUrl(fetched)]
      ensures loading == old(loading)[i := false]
      ensures prompts == old(prompts) + [ImagePrompt(name)]
      ensures forall j :: j != i ==> (j in images <==> j in old(images)) && (j in old(images) ==> images[j] == old(images)[j])
      ensures forall j :: j != i ==> (j in loading <==> j in old(loading)) && (j in old(loading) ==> loading[j] == old(loading)[j])
      ensures !IsLoading(i)
    {
      StartImage(i, name);
      var url := ImageUrl(fetched);
      FinishImage(i, url);
    }
  }
}
