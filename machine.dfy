/**
 * The conversation engine as the handler registrations define it, as a pure
 * function of the whole bot state. For each event the first registered handler
 * whose filters match runs; when none matches, the event is dropped.
 */
module Machine {
  import opened Outcomes
  import opened Days
  import opened Resources

  /** The six `BotStates`; a user without an entry is in no state at all. */
  datatype BotState =
    | ChooseWeekdayToShow(kind: Kind)  // choose_weekday_to_show_schedule / _homework
    | ChooseWeekdayToEdit(kind: Kind)  // choose_weekday_to_edit_schedule / _homework
    | EditForWeekday(kind: Kind)       // edit_schedule_for_weekday / edit_homework_for_weekday

  /** The buttons of the main menu. */
  datatype MenuItem =
    | ShowResource(kind: Kind)  // show_schedule / show_homework
    | EditResource(kind: Kind)  // edit_schedule / edit_homework
    | ShowACat                  // show_a_cat

  /** What a user can send. */
  datatype Event =
    | Start                          // the /start command
    | Menu(item: MenuItem)           // a main-menu button
    | WeekdayPicked(weekday: string) // a weekday button: the `weekday` part of its callback data
    | FreeText(text: string)         // any other text message

  /** What the bot answers; the Russian wording is left to the transport. */
  datatype Reply =
    | Greeting                            // welcome text with the main menu
    | WeekdayKeyboard(item: MenuItem)     // "choose a day" with the weekday keyboard
    | AddItFirst(kind: Kind)              // nothing stored for the chosen day
    | DayText(kind: Kind, text: string)   // the text stored for the chosen day
    | EnterText(kind: Kind)               // asks for the text of the chosen day
    | Saved(kind: Kind, shown: Option<string>) // echo of the day just written, read back
    | CatPicture                          // the motivation picture (its fetching is not modelled)
    | Ignored                             // no handler matched: no reply
    | Raised(error: Exception)            // the handler raised; nothing was written, nothing sent

  /**
   * The whole state: both registries, the FSM state of each user and the
   * `chosen_weekday` entry of each user's data dict.
   */
  datatype World = World(
    schedules: Registry,
    homeworks: Registry,
    states: map<int, BotState>,
    chosen: map<int, string>)

  datatype Outcome = Outcome(world: World, reply: Reply)

  /** The state at process start: everything empty. */
  const Initial := World(map[], map[], map[], map[])

  function Instances(w: World, kind: Kind): Registry
  {
    RegistryOf(kind, w.schedules, w.homeworks)
  }

  function WithInstances(w: World, kind: Kind, reg: Registry): World
  {
    if kind == Schedule then w.(schedules := reg) else w.(homeworks := reg)
  }

  /** `/start`, in any state: get or create both resources, greet; the FSM state and data are not touched. */
  function HandleStart(w: World, user: int): (o: Outcome)
    ensures o.reply == Greeting
    ensures user in o.world.schedules && user in o.world.homeworks
    ensures forall k, u :: u in Instances(w, k) ==> u in Instances(o.world, k) && Instances(o.world, k)[u] == Instances(w, k)[u]
    ensures forall k, u :: u in Instances(o.world, k) && u !in Instances(w, k) ==> u == user && Instances(o.world, k)[u] == map[]
    ensures o.world.states == w.states && o.world.chosen == w.chosen
  {
    Outcome(w.(schedules := WithOwner(w.schedules, user), homeworks := WithOwner(w.homeworks, user)), Greeting)
  }

  /** A main-menu button, in any state. */
  function HandleMenu(w: World, user: int, item: MenuItem): (o: Outcome)
    ensures item == ShowACat ==> o == Outcome(w, CatPicture)
    ensures item != ShowACat ==>
      && o.reply == WeekdayKeyboard(item)
      && user in o.world.states
      && o.world.states[user].kind == item.kind
      && (o.world.states[user].ChooseWeekdayToShow? <==> item.ShowResource?)
      && (o.world.states[user].ChooseWeekdayToEdit? <==> item.EditResource?)
      && (forall u :: u != user ==> (u in o.world.states <==> u in w.states))
      && (forall u :: u != user && u in w.states ==> o.world.states[u] == w.states[u])
      && o.world.(states := w.states) == w
  {
    match item
    case ShowResource(k) => Outcome(w.(states := w.states[user := ChooseWeekdayToShow(k)]), WeekdayKeyboard(item))
    case EditResource(k) => Outcome(w.(states := w.states[user := ChooseWeekdayToEdit(k)]), WeekdayKeyboard(item))
    case ShowACat => Outcome(w, CatPicture)
  }

  /** A weekday button while choosing a day to show: read the user's instance, change nothing. */
  function ShowDay(w: World, user: int, k: Kind, weekday: string): (r: Reply)
    ensures r.Raised? <==> (user !in Instances(w, k) || !IsDayValue(weekday))
    ensures user !in Instances(w, k) ==> r == Raised(AttributeError)
    ensures user in Instances(w, k) && !IsDayValue(weekday) ==> r == Raised(ValueError)
    ensures forall d: Day :: user in Instances(w, k) && weekday == Value(d) ==>
      r == (if d in Instances(w, k)[user] then DayText(k, Instances(w, k)[user][d]) else AddItFirst(k))
  {
    match Lookup(Instances(w, k), user)
    case None => Raised(AttributeError)
    case Some(days) =>
      match GetForDay(days, Text(weekday))
      case Raise(e) => Raised(e)
      case Ok(None) => AddItFirst(k)
      case Ok(Some(t)) => DayText(k, t)
  }

  /** A weekday button while choosing a day to edit: remember it and wait for text. */
  function ChooseDay(w: World, user: int, k: Kind, weekday: string): (o: Outcome)
    ensures o.reply == EnterText(k)
    ensures o.world.states == w.states[user := EditForWeekday(k)]
    ensures o.world.chosen == w.chosen[user := weekday]
    ensures o.world.schedules == w.schedules && o.world.homeworks == w.homeworks
  {
    Outcome(w.(chosen := w.chosen[user := weekday], states := w.states[user := EditForWeekday(k)]), EnterText(k))
  }

  /** Text while editing: store it under `chosen_weekday` and echo what is now stored; the state is kept. */
  function SaveText(w: World, user: int, k: Kind, body: string): (o: Outcome)
    ensures o.reply == Raised(KeyError) <==> user !in w.chosen
    ensures o.reply.Raised? ==> o.world == w
    ensures user in w.chosen && user !in Instances(w, k) ==> o == Outcome(w, Raised(AttributeError))
    ensures user in w.chosen && user in Instances(w, k) && !IsDayValue(w.chosen[user]) ==> o == Outcome(w, Raised(ValueError))
    ensures o.world.states == w.states && o.world.chosen == w.chosen
    ensures Instances(o.world, Other(k)) == Instances(w, Other(k))
    ensures forall d: Day :: user in w.chosen && w.chosen[user] == Value(d) && user in Instances(w, k) ==>
      && o.reply == Saved(k, Some(body))
      && Instances(o.world, k) == Instances(w, k)[user := Instances(w, k)[user][d := body]]
  {
    if user !in w.chosen then Outcome(w, Raised(KeyError))
    else
      match Lookup(Instances(w, k), user)
      case None => Outcome(w, Raised(AttributeError))
      case Some(days) =>
        match SetForDay(days, Text(w.chosen[user]), body)
        case Raise(e) => Outcome(w, Raised(e))
        case Ok(updated) =>
          var w' := WithInstances(w, k, Instances(w, k)[user := updated]);
          match GetForDay(updated, Text(w.chosen[user]))
          case Raise(e) => Outcome(w', Raised(e))
          case Ok(shown) => Outcome(w', Saved(k, shown))
  }

  /** One event from one user. A handler that raises has written nothing; a dropped event changes nothing. */
  function Step(w: World, user: int, e: Event): (o: Outcome)
    ensures o.reply.Raised? ==> o.world == w
    ensures o.reply == Ignored ==> o.world == w
    ensures (e.Menu? || e.Start?) ==> !o.reply.Raised? && o.reply != Ignored
  {
    match e
    case Start => HandleStart(w, user)
    case Menu(item) => HandleMenu(w, user, item)
    case WeekdayPicked(s) =>
      if user !in w.states then Outcome(w, Ignored)
      else (
        match w.states[user]
        case ChooseWeekdayToShow(k) => Outcome(w, ShowDay(w, user, k, s))
        case ChooseWeekdayToEdit(k) => ChooseDay(w, user, k, s)
        case EditForWeekday(_) => Outcome(w, Ignored))
    case FreeText(body) =>
      if user in w.states && w.states[user].EditForWeekday? then SaveText(w, user, w.states[user].kind, body)
      else Outcome(w, Ignored)
  }

  /** One event of a run. */
  datatype Input = Input(user: int, event: Event)

  /** The state after a sequence of events, handled one at a time. */
  function Run(w: World, inputs: seq<Input>): World
    decreases |inputs|
  {
    if inputs == [] then w else Run(Step(w, inputs[0].user, inputs[0].event).world, inputs[1..])
  }
}
