/** What the handlers promise, stated over the pure model of the engine. */
module MachineProperties {
  import opened Outcomes
  import opened Days
  import opened Resources
  import opened Machine

  // ---------------------------------------------------------------------------
  // One handler at a time
  // ---------------------------------------------------------------------------

  /** `/start` in any state: both resources exist afterwards, stored texts, FSM state and data are kept. */
  lemma StartEnsuresResources(w: World, user: int)
    ensures var o := Step(w, user, Start);
      && o.reply == Greeting
      && (forall k :: Instances(o.world, k) == WithOwner(Instances(w, k), user))
      && (forall k :: user in Instances(o.world, k))
      && (forall k :: user in Instances(w, k) ==> Instances(o.world, k)[user] == Instances(w, k)[user])
      && o.world.states == w.states
      && o.world.chosen == w.chosen
  {
  }

  /** A second `/start` changes nothing more. */
  lemma StartIdempotent(w: World, user: int)
    ensures var w1 := Step(w, user, Start).world;
      Step(w1, user, Start) == Outcome(w1, Greeting)
  {
  }

  /** The four menu buttons are taken in every state and set exactly their state; registries and data are kept. */
  lemma MenuSetsState(w: World, user: int, item: MenuItem)
    requires item != ShowACat
    ensures var o := Step(w, user, Menu(item));
      && o.reply == WeekdayKeyboard(item)
      && o.world.states == w.states[user := if item.ShowResource? then ChooseWeekdayToShow(item.kind)
                                            else ChooseWeekdayToEdit(item.kind)]
      && o.world.schedules == w.schedules
      && o.world.homeworks == w.homeworks
      && o.world.chosen == w.chosen
  {
  }

  /** The motivation button changes no state at all. */
  lemma CatChangesNothing(w: World, user: int)
    ensures Step(w, user, Menu(ShowACat)) == Outcome(w, CatPicture)
  {
  }

  /** A weekday button while choosing a day to edit records it and waits for text; registries are kept. */
  lemma ChooseDayToEdit(w: World, user: int, k: Kind, weekday: string)
    requires user in w.states && w.states[user] == ChooseWeekdayToEdit(k)
    ensures var o := Step(w, user, WeekdayPicked(weekday));
      && o.reply == EnterText(k)
      && o.world.states == w.states[user := EditForWeekday(k)]
      && o.world.chosen == w.chosen[user := weekday]
      && o.world.schedules == w.schedules
      && o.world.homeworks == w.homeworks
  {
  }

  /**
   * A weekday button while choosing a day to show only reads: the reply is the
   * stored text or "add it first", and the state stays so that another day can be picked.
   */
  lemma ShowDayReadsOnly(w: World, user: int, k: Kind, d: Day)
    requires user in w.states && w.states[user] == ChooseWeekdayToShow(k)
    requires user in Instances(w, k)
    ensures var o := Step(w, user, WeekdayPicked(Value(d)));
      && o.world == w
      && o.reply == (if d in Instances(w, k)[user] then DayText(k, Instances(w, k)[user][d]) else AddItFirst(k))
  {
  }

  /** Without `/start`, viewing a day dereferences `None`: AttributeError, and nothing changes. */
  lemma ShowBeforeStartRaises(w: World, user: int, k: Kind, weekday: string)
    requires user in w.states && w.states[user] == ChooseWeekdayToShow(k)
    requires user !in Instances(w, k)
    ensures Step(w, user, WeekdayPicked(weekday)) == Outcome(w, Raised(AttributeError))
  {
  }

  /** Without `/start`, text while editing calls `set_for_day` on `None`: AttributeError, and nothing changes. */
  lemma TextBeforeStartRaises(w: World, user: int, k: Kind, body: string)
    requires user in w.states && w.states[user] == EditForWeekday(k)
    requires user in w.chosen
    requires user !in Instances(w, k)
    ensures Step(w, user, FreeText(body)) == Outcome(w, Raised(AttributeError))
  {
  }

  /** Text while editing writes exactly the text under the chosen day and echoes it; state and data are kept. */
  lemma SaveTextWrites(w: World, user: int, k: Kind, d: Day, body: string)
    requires user in w.states && w.states[user] == EditForWeekday(k)
    requires user in w.chosen && w.chosen[user] == Value(d)
    requires user in Instances(w, k)
    ensures var o := Step(w, user, FreeText(body));
      && o.reply == Saved(k, Some(body))
      && Instances(o.world, k) == Instances(w, k)[user := Instances(w, k)[user][d := body]]
      && Instances(o.world, Other(k)) == Instances(w, Other(k))
      && o.world.states == w.states
      && o.world.chosen == w.chosen
  {
  }

  /** Further text overwrites the same day: the last write wins and the state is still the editing one. */
  lemma LastWriteWins(w: World, user: int, k: Kind, d: Day, first: string, second: string)
    requires user in w.states && w.states[user] == EditForWeekday(k)
    requires user in w.chosen && w.chosen[user] == Value(d)
    requires user in Instances(w, k)
    ensures var w2 := Step(Step(w, user, FreeText(first)).world, user, FreeText(second)).world;
      && Instances(w2, k) == Instances(w, k)[user := Instances(w, k)[user][d := second]]
      && w2.states == w.states
      && w2.chosen == w.chosen
  {
    var w1 := Step(w, user, FreeText(first)).world;
    SaveTextWrites(w, user, k, d, first);
    SaveTextWrites(w1, user, k, d, second);
    assert Instances(w1, k)[user][d := second] == Instances(w, k)[user][d := second];
  }

  /** Events no handler matches are dropped: no state change, no store change, no reply. */
  lemma UnmatchedIgnored(w: World, user: int, e: Event)
    requires || (e.WeekdayPicked? && (user !in w.states || w.states[user].EditForWeekday?))
             || (e.FreeText? && (user !in w.states || !w.states[user].EditForWeekday?))
    ensures Step(w, user, e) == Outcome(w, Ignored)
  {
  }

  /** `/start` is registered before the text handlers: while editing, it stores nothing. */
  lemma StartWhileEditingStoresNothing(w: World, user: int, k: Kind)
    requires user in w.states && w.states[user] == EditForWeekday(k)
    requires user in Instances(w, k)
    ensures Instances(Step(w, user, Start).world, k) == Instances(w, k)
    ensures Step(w, user, Start).world.states[user] == EditForWeekday(k)
  {
  }

  // ---------------------------------------------------------------------------
  // Reachable states
  // ---------------------------------------------------------------------------

  /**
   * The invariant of reachable states: a user in an editing state has a chosen
   * weekday, and the two registries know the same owners (only `/start` creates, and creates both).
   */
  ghost predicate Inv(w: World)
  {
    && (forall u :: u in w.states && w.states[u].EditForWeekday? ==> u in w.chosen)
    && w.schedules.Keys == w.homeworks.Keys
  }

  lemma InitialInv()
    ensures Inv(Initial)
  {
  }

  lemma StepPreservesInv(w: World, user: int, e: Event)
    requires Inv(w)
    ensures Inv(Step(w, user, e).world)
  {
  }

  lemma {:induction false} RunPreservesInv(w: World, inputs: seq<Input>)
    requires Inv(w)
    ensures Inv(Run(w, inputs))
    decreases |inputs|
  {
    if inputs != [] {
      StepPreservesInv(w, inputs[0].user, inputs[0].event);
      RunPreservesInv(Step(w, inputs[0].user, inputs[0].event).world, inputs[1..]);
    }
  }

  /** Every state reached from process start satisfies the invariant. */
  lemma ReachableInv(inputs: seq<Input>)
    ensures Inv(Run(Initial, inputs))
  {
    InitialInv();
    RunPreservesInv(Initial, inputs);
  }

  /** Running two sequences one after the other. */
  lemma {:induction false} RunAppend(w: World, a: seq<Input>, b: seq<Input>)
    ensures Run(w, a + b) == Run(Run(w, a), b)
    decreases |a|
  {
    if a == [] {
      assert a + b == b;
    } else {
      assert a + b != [];
      assert (a + b)[0] == a[0];
      assert (a + b)[1..] == a[1..] + b;
      RunAppend(Step(w, a[0].user, a[0].event).world, a[1..], b);
    }
  }

  /** Owners are never dropped from a registry. */
  lemma StepKeepsOwners(w: World, user: int, e: Event)
    ensures forall k :: Instances(w, k).Keys <= Instances(Step(w, user, e).world, k).Keys
  {
  }

  lemma {:induction false} RunKeepsOwners(w: World, inputs: seq<Input>)
    ensures forall k :: Instances(w, k).Keys <= Instances(Run(w, inputs), k).Keys
    decreases |inputs|
  {
    if inputs != [] {
      StepKeepsOwners(w, inputs[0].user, inputs[0].event);
      RunKeepsOwners(Step(w, inputs[0].user, inputs[0].event).world, inputs[1..]);
    }
  }

  /**
   * Only `/start` calls `get_or_create_*`: an owner who sends no `/start`
   * stays unknown to both registries, so `get` keeps returning `None` for them.
   */
  lemma {:induction false} NeverStartedNeverRegistered(w: World, inputs: seq<Input>, owner: int)
    requires owner !in w.schedules && owner !in w.homeworks
    requires forall i :: 0 <= i < |inputs| ==> inputs[i] != Input(owner, Start)
    ensures owner !in Run(w, inputs).schedules && owner !in Run(w, inputs).homeworks
    ensures Lookup(Run(w, inputs).schedules, owner) == None && Lookup(Run(w, inputs).homeworks, owner) == None
    decreases |inputs|
  {
    if inputs != [] {
      var w1 := Step(w, inputs[0].user, inputs[0].event).world;
      assert owner !in w1.schedules && owner !in w1.homeworks;
      NeverStartedNeverRegistered(w1, inputs[1..], owner);
    }
  }

  /** Events as the keyboards produce them: every weekday payload is the value of a member. */
  predicate WellFormed(e: Event)
  {
    e.WeekdayPicked? ==> IsDayValue(e.weekday)
  }

  /** Every stored `chosen_weekday` names a weekday. */
  ghost predicate ChosenAreDays(w: World)
  {
    forall u :: u in w.chosen ==> IsDayValue(w.chosen[u])
  }

  lemma StepKeepsChosenDays(w: World, user: int, e: Event)
    requires ChosenAreDays(w) && WellFormed(e)
    ensures ChosenAreDays(Step(w, user, e).world)
  {
  }

  lemma {:induction false} RunKeepsChosenDays(w: World, inputs: seq<Input>)
    requires ChosenAreDays(w)
    requires forall i :: 0 <= i < |inputs| ==> WellFormed(inputs[i].event)
    ensures ChosenAreDays(Run(w, inputs))
    decreases |inputs|
  {
    if inputs != [] {
      StepKeepsChosenDays(w, inputs[0].user, inputs[0].event);
      RunKeepsChosenDays(Step(w, inputs[0].user, inputs[0].event).world, inputs[1..]);
    }
  }

  /** In a reachable state, a user who has sent `/start` can make no handler raise with keyboard input. */
  lemma StepNeverRaisesOnceStarted(w: World, user: int, e: Event)
    requires Inv(w) && ChosenAreDays(w) && WellFormed(e)
    requires user in w.schedules
    ensures !Step(w, user, e).reply.Raised?
  {
  }

  /** A run of keyboard input from process start stays reachable and keeps chosen weekdays valid. */
  lemma RunFromStartSafe(w: World, inputs: seq<Input>)
    requires Inv(w) && ChosenAreDays(w)
    requires forall i :: 0 <= i < |inputs| ==> WellFormed(inputs[i].event)
    ensures Inv(Run(w, inputs)) && ChosenAreDays(Run(w, inputs))
    ensures forall k :: Instances(w, k).Keys <= Instances(Run(w, inputs), k).Keys
  {
    RunPreservesInv(w, inputs);
    RunKeepsChosenDays(w, inputs);
    RunKeepsOwners(w, inputs);
  }

  /** From process start, once a user has sent `/start`, keyboard input from that user never raises. */
  lemma NoRaiseAfterStart(before: seq<Input>, user: int, after: seq<Input>, e: Event)
    requires forall i :: 0 <= i < |before| ==> WellFormed(before[i].event)
    requires forall i :: 0 <= i < |after| ==> WellFormed(after[i].event)
    requires WellFormed(e)
    ensures !Step(Run(Initial, before + [Input(user, Start)] + after), user, e).reply.Raised?
  {
    InitialInv();
    RunFromStartSafe(Initial, before);
    var mid := Run(Initial, before);
    var started := Step(mid, user, Start).world;
    StepPreservesInv(mid, user, Start);
    StepKeepsChosenDays(mid, user, Start);
    assert user in started.schedules;
    RunFromStartSafe(started, after);
    assert Instances(started, Schedule).Keys <= Instances(Run(started, after), Schedule).Keys;
    var last := Run(started, after);
    RunAppend(Initial, before, [Input(user, Start)]);
    RunAppend(Initial, before + [Input(user, Start)], after);
    assert Run(mid, [Input(user, Start)]) == started;
    assert Run(Initial, before + [Input(user, Start)] + after) == last;
    StepNeverRaisesOnceStarted(last, user, e);
  }

  // ---------------------------------------------------------------------------
  // Independence of users
  // ---------------------------------------------------------------------------

  /** Everything the bot keeps about one user. */
  datatype UserView = UserView(
    state: Option<BotState>,
    chosen: Option<string>,
    schedule: Option<DayTexts>,
    homework: Option<DayTexts>)

  function Project(w: World, user: int): UserView
  {
    UserView(
      if user in w.states then Some(w.states[user]) else None,
      if user in w.chosen then Some(w.chosen[user]) else None,
      Lookup(w.schedules, user),
      Lookup(w.homeworks, user))
  }

  /** An event from one user leaves every other user's state, data and resources as they were. */
  lemma StepFrame(w: World, user: int, e: Event, other: int)
    requires other != user
    ensures Project(Step(w, user, e).world, other) == Project(w, other)
  {
  }

  /** What an event does to its sender and what it replies depend only on what the bot keeps about the sender. */
  lemma StepLocal(w1: World, w2: World, user: int, e: Event)
    requires Project(w1, user) == Project(w2, user)
    ensures Project(Step(w1, user, e).world, user) == Project(Step(w2, user, e).world, user)
    ensures Step(w1, user, e).reply == Step(w2, user, e).reply
  {
    match e {
      case Start => StartLocal(w1, w2, user);
      case Menu(item) => MenuLocal(w1, w2, user, item);
      case WeekdayPicked(s) => WeekdayLocal(w1, w2, user, s);
      case FreeText(body) => TextLocal(w1, w2, user, body);
    }
  }

  lemma MenuLocal(w1: World, w2: World, user: int, item: MenuItem)
    requires Project(w1, user) == Project(w2, user)
    ensures Project(HandleMenu(w1, user, item).world, user) == Project(HandleMenu(w2, user, item).world, user)
  {
  }

  lemma TextLocal(w1: World, w2: World, user: int, body: string)
    requires Project(w1, user) == Project(w2, user)
    ensures Project(Step(w1, user, FreeText(body)).world, user) == Project(Step(w2, user, FreeText(body)).world, user)
    ensures Step(w1, user, FreeText(body)).reply == Step(w2, user, FreeText(body)).reply
  {
  }

  lemma StartLocal(w1: World, w2: World, user: int)
    requires Project(w1, user) == Project(w2, user)
    ensures Project(HandleStart(w1, user).world, user) == Project(HandleStart(w2, user).world, user)
  {
  }

  lemma WeekdayLocal(w1: World, w2: World, user: int, s: string)
    requires Project(w1, user) == Project(w2, user)
    ensures Project(Step(w1, user, WeekdayPicked(s)).world, user) == Project(Step(w2, user, WeekdayPicked(s)).world, user)
    ensures Step(w1, user, WeekdayPicked(s)).reply == Step(w2, user, WeekdayPicked(s)).reply
  {
  }

  /** The events of one user, in order. */
  function EventsOf(inputs: seq<Input>, user: int): seq<Event>
  {
    if inputs == [] then []
    else if inputs[0].user == user then [inputs[0].event] + EventsOf(inputs[1..], user)
    else EventsOf(inputs[1..], user)
  }

  /** The events of one user, all sent by that user. */
  function Solo(events: seq<Event>, user: int): (r: seq<Input>)
    ensures |r| == |events|
    ensures forall i :: 0 <= i < |r| ==> r[i] == Input(user, events[i])
  {
    if events == [] then [] else [Input(user, events[0])] + Solo(events[1..], user)
  }

  /**
   * Interleaving other users' events does not change what a user ends up with:
   * the user's part of the state after any run is the part after that user's own events alone.
   */
  lemma {:induction false} Interleaving(w1: World, w2: World, inputs: seq<Input>, user: int)
    requires Project(w1, user) == Project(w2, user)
    ensures Project(Run(w1, inputs), user) == Project(Run(w2, Solo(EventsOf(inputs, user), user)), user)
    decreases |inputs|
  {
    if inputs != [] {
      var x := inputs[0];
      var n1 := Step(w1, x.user, x.event).world;
      if x.user == user {
        var n2 := Step(w2, user, x.event).world;
        StepLocal(w1, w2, user, x.event);
        var solo := Solo(EventsOf(inputs, user), user);
        assert EventsOf(inputs, user) == [x.event] + EventsOf(inputs[1..], user);
        assert solo[0] == Input(user, x.event);
        assert solo[1..] == Solo(EventsOf(inputs[1..], user), user);
        Interleaving(n1, n2, inputs[1..], user);
      } else {
        StepFrame(w1, x.user, x.event, user);
        Interleaving(n1, w2, inputs[1..], user);
      }
    }
  }

  // ---------------------------------------------------------------------------
  // Scenarios
  // ---------------------------------------------------------------------------

  /** start, edit schedule, Monday, text: Monday's schedule is the text; the user is still editing Monday. */
  lemma ScenarioEditSchedule(w: World, user: int, body: string)
    ensures var w1 := Step(w, user, Start).world;
      var w2 := Step(w1, user, Menu(EditResource(Schedule))).world;
      var w3 := Step(w2, user, WeekdayPicked("monday")).world;
      var o := Step(w3, user, FreeText(body));
      && w2.states[user] == ChooseWeekdayToEdit(Schedule)
      && w3.states[user] == EditForWeekday(Schedule) && w3.chosen[user] == "monday"
      && o.reply == Saved(Schedule, Some(body))
      && o.world.schedules[user][Monday] == body
      && o.world.states[user] == EditForWeekday(Schedule)
      && o.world.chosen[user] == "monday"
  {
  }

  /** start, show homework, Friday with nothing stored: "add it first", nothing changes. */
  lemma ScenarioShowUnsetHomework(w: World, user: int)
    requires user !in w.homeworks
    ensures var w1 := Step(w, user, Start).world;
      var w2 := Step(w1, user, Menu(ShowResource(Homework))).world;
      Step(w2, user, WeekdayPicked("friday")) == Outcome(w2, AddItFirst(Homework))
  {
  }

  /** Without `/start` the same steps raise AttributeError: the view handler assumes `/start` ran. */
  lemma ScenarioShowWithoutStart(user: int)
    ensures var w1 := Step(Initial, user, Menu(ShowResource(Homework))).world;
      Step(w1, user, WeekdayPicked("friday")) == Outcome(w1, Raised(AttributeError))
  {
  }

  /**
   * Two users editing the same day with different texts, their events
   * interleaved in any order, each keep their own text.
   */
  lemma ScenarioTwoUsers(inputs: seq<Input>, u1: int, u2: int, t1: string, t2: string)
    requires u1 != u2
    requires EventsOf(inputs, u1) == [Start, Menu(EditResource(Schedule)), WeekdayPicked("monday"), FreeText(t1)]
    requires EventsOf(inputs, u2) == [Start, Menu(EditResource(Schedule)), WeekdayPicked("monday"), FreeText(t2)]
    ensures var w := Run(Initial, inputs);
      && u1 in w.schedules && Monday in w.schedules[u1] && w.schedules[u1][Monday] == t1
      && u2 in w.schedules && Monday in w.schedules[u2] && w.schedules[u2][Monday] == t2
  {
    OwnEditSurvivesInterleaving(inputs, u1, t1);
    OwnEditSurvivesInterleaving(inputs, u2, t2);
  }

  /** A user's own start, edit-schedule, Monday, text leaves the text stored, whatever other users do meanwhile. */
  lemma OwnEditSurvivesInterleaving(inputs: seq<Input>, u: int, t: string)
    requires EventsOf(inputs, u) == [Start, Menu(EditResource(Schedule)), WeekdayPicked("monday"), FreeText(t)]
    ensures var w := Run(Initial, inputs);
      u in w.schedules && Monday in w.schedules[u] && w.schedules[u][Monday] == t
  {
    Interleaving(Initial, Initial, inputs, u);
    SoloEdit(u, t);
    assert Project(Run(Initial, inputs), u).schedule
        == Lookup(Run(Initial, Solo(EventsOf(inputs, u), u)).schedules, u);
  }

  /** The same four events from one user alone, as a run from process start. */
  lemma SoloEdit(u: int, t: string)
    ensures var w := Run(Initial, Solo([Start, Menu(EditResource(Schedule)), WeekdayPicked("monday"), FreeText(t)], u));
      u in w.schedules && Monday in w.schedules[u] && w.schedules[u][Monday] == t
  {
    var mine := [Start, Menu(EditResource(Schedule)), WeekdayPicked("monday"), FreeText(t)];
    var solo := Solo(mine, u);
    var x0, x1, x2, x3 := Input(u, mine[0]), Input(u, mine[1]), Input(u, mine[2]), Input(u, mine[3]);
    assert solo == [x0, x1, x2] + [x3];
    assert [x0, x1, x2] == [x0, x1] + [x2];
    assert [x0, x1] == [x0] + [x1];
    RunAppend(Initial, [x0, x1, x2], [x3]);
    RunAppend(Initial, [x0, x1], [x2]);
    RunAppend(Initial, [x0], [x1]);
    ScenarioEditSchedule(Initial, u, t);
  }
}
