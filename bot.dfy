/**
 * The dispatcher with its memory storage and the handlers, as an object: the
 * resource registries, and for each user the FSM state and the `chosen_weekday`
 * entry of the data dict. Each handler updates them in place; every one of
 * them is proved to do what `Machine.Step` says.
 */
module Bot {
  import opened Outcomes
  import opened Days
  import opened Resources
  import Machine
  import MachineProperties

  class Conversation {
    const store: ResourceStore
    var states: map<int, Machine.BotState>
    var chosen: map<int, string>

    /** The whole state, as the pure model sees it. */
    function View(): Machine.World
      reads this, store
    {
      Machine.World(store.schedules, store.homeworks, states, chosen)
    }

    /** The invariant of reachable states. */
    ghost predicate Valid()
      reads this, store
    {
      MachineProperties.Inv(View())
    }

    /** Process start: empty registries, no user in any state. */
    constructor ()
      ensures View() == Machine.Initial
      ensures fresh(store)
      ensures Valid()
    {
      store := new ResourceStore();
      states := map[];
      chosen := map[];
      MachineProperties.InitialInv();
    }

    /** `start`: get or create both resources of the sender. */
    method Start(user: int) returns (reply: Machine.Reply)
      modifies store
      ensures Machine.Outcome(View(), reply) == Machine.HandleStart(old(View()), user)
    {
      var schedule := store.GetOrCreate(Schedule, user);
      var homework := store.GetOrCreate(Homework, user);
      reply := Machine.Greeting;
    }

    /** `show_schedule`, `show_homework`, `edit_schedule`, `edit_homework`, `show_a_cat`. */
    method Menu(user: int, item: Machine.MenuItem) returns (reply: Machine.Reply)
      modifies this
      ensures Machine.Outcome(View(), reply) == Machine.HandleMenu(old(View()), user, item)
    {
      match item
      case ShowResource(k) =>
        states := states[user := Machine.ChooseWeekdayToShow(k)];
        reply := Machine.WeekdayKeyboard(item);
      case EditResource(k) =>
        states := states[user := Machine.ChooseWeekdayToEdit(k)];
        reply := Machine.WeekdayKeyboard(item);
      case ShowACat =>
        reply := Machine.CatPicture;
    }

    /** A weekday button while choosing a day to show: read the stored text; nothing is updated. */
    method ShowForDay(user: int, k: Kind, weekday: string) returns (reply: Machine.Reply)
      ensures reply == Machine.ShowDay(View(), user, k, weekday)
    {
      var instance := store.Get(k, user);
      if instance.None? {
        return Machine.Raised(AttributeError);
      }
      var text := GetForDay(instance.value, Text(weekday));
      match text
      case Raise(e) => reply := Machine.Raised(e);
      case Ok(None) => reply := Machine.AddItFirst(k);
      case Ok(Some(t)) => reply := Machine.DayText(k, t);
    }

    /** A weekday button while choosing a day to edit: `update_data(chosen_weekday=...)`, then the editing state. */
    method ChooseDayToEdit(user: int, k: Kind, weekday: string) returns (reply: Machine.Reply)
      modifies this
      ensures Machine.Outcome(View(), reply) == Machine.ChooseDay(old(View()), user, k, weekday)
    {
      chosen := chosen[user := weekday];
      states := states[user := Machine.EditForWeekday(k)];
      reply := Machine.EnterText(k);
    }

    /** Text while editing: `set_for_day(chosen_weekday, text)` on the sender's instance, then read it back. */
    method SaveText(user: int, k: Kind, body: string) returns (reply: Machine.Reply)
      modifies store
      ensures Machine.Outcome(View(), reply) == Machine.SaveText(old(View()), user, k, body)
    {
      if user !in chosen {
        return Machine.Raised(KeyError);
      }
      var weekday := chosen[user];
      var instance := store.Get(k, user);
      if instance.None? {
        return Machine.Raised(AttributeError);
      }
      var written := store.SetForDayOf(k, user, Text(weekday), body);
      if written.Raise? {
        return Machine.Raised(written.error);
      }
      var now := store.Get(k, user);
      var shown := GetForDay(now.value, Text(weekday));
      match shown
      case Raise(e) => reply := Machine.Raised(e);
      case Ok(t) => reply := Machine.Saved(k, t);
    }

    /** Dispatch one event to the first handler whose filters match; drop it when none does. */
    method Step(user: int, e: Machine.Event) returns (reply: Machine.Reply)
      requires Valid()
      modifies this, store
      ensures Machine.Outcome(View(), reply) == Machine.Step(old(View()), user, e)
      ensures Valid()
    {
      ghost var before := View();
      match e
      case Start =>
        reply := Start(user);
      case Menu(item) =>
        reply := Menu(user, item);
      case WeekdayPicked(s) =>
        if user !in states {
          reply := Machine.Ignored;
        } else {
          match states[user]
          case ChooseWeekdayToShow(k) => reply := ShowForDay(user, k, s);
          case ChooseWeekdayToEdit(k) => reply := ChooseDayToEdit(user, k, s);
          case EditForWeekday(_) => reply := Machine.Ignored;
        }
      case FreeText(body) =>
        if user in states && states[user].EditForWeekday? {
          reply := SaveText(user, states[user].kind, body);
        } else {
          reply := Machine.Ignored;
        }
      MachineProperties.StepPreservesInv(before, user, e);
    }
  }
}
