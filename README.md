# Motivation and Study Bot: conversation engine model

A Dafny model of the core of a chat bot in which each user keeps a weekly
schedule and a weekly homework list, one text per weekday. The user sets and
reads them through menu buttons, weekday buttons and free-text messages. The
model covers three layers of `project_bot_hw.py`:

- **`Day`** (`days.dfy`, module `Days`). The seven-member weekday enumeration.
  `Day(x)` is used as a parser: it is the identity on members, looks strings up
  by value, and raises `ValueError` for any other string.
- **`Schedule` and `Homework`** (`resources.dfy`, module `Resources`). Each
  instance holds a dict `Day -> str`. Each class keeps a registry
  `owner id -> instance`. An instance is identified by its owner, so a registry
  is a map from owner ids to day texts. `get_for_day` and `set_for_day` are
  functions on those day texts. The class `ResourceStore` holds both registries
  and updates them in place with `GetOrCreate` (`get_or_create_*`) and
  `SetForDayOf` (`set_for_day` on a registered instance). `Get` (`get`) only reads.
- **The handlers and their registrations** (`machine.dfy`, module `Machine`,
  a pure specification). `Machine.Step(world, user, event)` gives the next
  state and the reply. The state is made of both registries, each user's FSM
  state (absent means aiogram's "no state") and each user's `chosen_weekday`.
  Dispatch follows the registrations: the first handler whose filters match
  runs, and an event that no handler matches is dropped. A handler that raises
  is modelled by the reply `Raised(...)`: in every handler the raise happens
  before any write. `bot.dfy` (module `Bot`) is the dispatcher as an object. The
  class `Conversation` holds the store and the per-user maps. It has one method
  per handler, each updating its fields in place, and a `Step` method that
  dispatches. Each method is proved to do exactly what `Machine.Step` says, and
  `Step` keeps the invariant of reachable states.
- `properties.dfy` (module `MachineProperties`) proves what the handlers
  promise, the invariant of reachable states, that users are independent of
  each other, and three end-to-end scenarios and one counterexample (viewing a day without `/start` raises).

Some of the code's behaviour is easy to get wrong when reading it. The model follows the code as written:

- The view handlers keep the `choose_weekday_to_show_*` state, so another day
  can be picked. One might expect them to return to an idle state.
- The text handlers keep the `edit_*_for_weekday` state and never clear
  `chosen_weekday`, so further text overwrites the same day. One might expect
  them to return to idle and clear the pending day.
- `/start` never touches the FSM state or the data dict. It does not reset the
  conversation to idle.
- `chosen_weekday` is one slot shared by both edit flows. It holds the raw
  string from the callback data, which is only checked when `set_for_day` parses it.
- The view and text handlers assume that `/start` ran (the comments at
  project_bot_hw.py:195 and 228 say so). If it did not, `Schedule.get` and
  `Homework.get` return `None` and the handler raises `AttributeError`. The
  bot is therefore not free of failing handlers. `ScenarioShowWithoutStart` exhibits the
  raise. `NoRaiseAfterStart` proves the other side: after a user's `/start`,
  no keyboard input from that user raises.

## Model

| member | source | states |
|---|---|---|
| Days.Value | project_bot_hw.py:26-32 | each member's value is a word of at least six lowercase letters ending in "day" |
| Days.FromValue | project_bot_hw.py:24-32 | lookup by value succeeds exactly for the seven value strings, each giving its own member; any other string gives nothing |
| Days.Coerce | project_bot_hw.py:139 | `Day(x)` gives member `d` exactly when `x` is `d` itself or `d`'s value; it raises, always `ValueError`, exactly for a string that is no weekday value |
| Days.ValueInjective | project_bot_hw.py:26-32 | distinct members have distinct values |
| Days.ParseValue | project_bot_hw.py:24-32 | parsing a member's value, or the member itself, gives that member |
| Resources.GetForDay | project_bot_hw.py:133-140 | raises `ValueError` exactly when the day does not parse; for a parsed day, returns `None` exactly when no text is stored for it, and otherwise exactly the stored text |
| Resources.SetForDay | project_bot_hw.py:142-149 | raises `ValueError` before any write exactly when the day does not parse; otherwise the parsed day holds the text, no key is lost and every other day keeps its text |
| Resources.Lookup | project_bot_hw.py:124-131 | `get`: `None` exactly for an owner not in the registry, otherwise that owner's instance |
| Resources.WithOwner | project_bot_hw.py:113-122 | get-or-create: the owner is registered afterwards; an existing instance keeps its days; a new owner gets an empty instance; no other entry changes |
| Resources.SetThenGet | project_bot_hw.py:142-149 | `set_for_day(d, t)` followed by `get_for_day(d)` returns exactly `t` |
| Resources.SetKeepsOtherDays | project_bot_hw.py:142-149 | `set_for_day` on one day leaves every other day, and every unparsable argument, reading as before |
| Resources.FreshIsEmpty | project_bot_hw.py:109-111 | a fresh instance returns `None` for every weekday, given as a member or as its value |
| Resources.WithOwnerIdempotent | project_bot_hw.py:60-68 | get-or-create is idempotent, and `get` afterwards finds the kept or new empty instance |
| Resources.ResourceStore.constructor | project_bot_hw.py:106 | both class-level registries start empty |
| Resources.ResourceStore.Get | project_bot_hw.py:124-131 | `get` returns `None` exactly for an unregistered owner, else that owner's instance; it reads only |
| Resources.ResourceStore.GetOrCreate | project_bot_hw.py:113-122 | the registry of the class becomes get-or-create of the old one; the other class's registry is unchanged; the instance returned is the registered one |
| Resources.ResourceStore.SetForDayOf | project_bot_hw.py:142-149 | on a registered instance: `ValueError` with nothing written when the day does not parse; otherwise only that owner's instance changes, to `set_for_day` of the old one; the other class is unchanged |
| Machine.Step | project_bot_hw.py:160-344 | dispatch by registration order; a handler that raises, or an event that no handler matches, leaves the whole state unchanged; `/start` and the menu buttons are always handled and never raise |
| Machine.HandleStart | project_bot_hw.py:160-176 | `/start` greets; afterwards the sender has both resources; every existing instance is kept; the only new entries are empty instances of the sender; FSM state and data are unchanged |
| Machine.HandleMenu | project_bot_hw.py:179-286 | the motivation button changes nothing; each other menu button sets the sender's state to choosing a day, to show or to edit its own kind, and changes nothing else |
| Machine.ShowDay | project_bot_hw.py:191-241 | raises exactly when the sender has no instance (`AttributeError`) or the weekday is no day value (`ValueError`); otherwise the stored text, or "add it first" when the day is unset |
| Machine.ChooseDay | project_bot_hw.py:258-302 | records the weekday string as the sender's `chosen_weekday` and moves the sender to the matching editing state, keeping other users' entries; asks for text; registries are unchanged |
| Machine.SaveText | project_bot_hw.py:305-344 | `KeyError` exactly when no weekday was chosen; `AttributeError` when the sender has no instance; `ValueError` when the chosen weekday is no day value; a raise writes nothing; state, data and the other kind are unchanged; with a registered instance and a valid chosen day, it stores exactly the text under that day and echoes it |
| MachineProperties.StartEnsuresResources | project_bot_hw.py:160-176 | `/start` in any state creates any missing Schedule and Homework for the sender, keeps stored day texts, and leaves the FSM state and `chosen_weekday` unchanged |
| MachineProperties.StartIdempotent | project_bot_hw.py:160-169 | a second `/start` changes nothing |
| MachineProperties.MenuSetsState | project_bot_hw.py:179-286 | the four menu buttons are accepted in every state and set exactly their `choose_weekday_to_*` state; registries and `chosen_weekday` are unchanged |
| MachineProperties.CatChangesNothing | project_bot_hw.py:349-360 | the motivation button changes no FSM or store state |
| MachineProperties.ChooseDayToEdit | project_bot_hw.py:258-302 | a weekday button while choosing a day to edit records it as `chosen_weekday` and moves to the matching `edit_*_for_weekday` state; registries are unchanged |
| MachineProperties.ShowDayReadsOnly | project_bot_hw.py:191-241 | a weekday button while choosing a day to show changes nothing; the reply is "add it first" when the day is unset, else the stored text; the state is kept |
| MachineProperties.ShowBeforeStartRaises | project_bot_hw.py:202-204 | viewing a day without a registered instance raises `AttributeError` and changes nothing |
| MachineProperties.TextBeforeStartRaises | project_bot_hw.py:318-321 | text while editing without a registered instance raises `AttributeError` and changes nothing |
| MachineProperties.SaveTextWrites | project_bot_hw.py:305-344 | text while editing stores exactly the text under `chosen_weekday` in the sender's instance of that kind only, and echoes it; state and `chosen_weekday` are kept |
| MachineProperties.LastWriteWins | project_bot_hw.py:305-323 | two texts in a row: the second overwrites the same day and the editing state is still in force |
| MachineProperties.UnmatchedIgnored | project_bot_hw.py:191-344 | a weekday button outside the two choosing states, or text outside the editing states, is dropped: no change, no reply |
| MachineProperties.StartWhileEditingStoresNothing | project_bot_hw.py:160-161 | `/start` is matched before the text handlers, so while editing it stores nothing and the editing state is kept |
| MachineProperties.StepPreservesInv | project_bot_hw.py:258-302 | every event keeps the invariant: a user in an editing state has a `chosen_weekday`, and both registries know the same owners |
| MachineProperties.RunPreservesInv | project_bot_hw.py:258-302 | any sequence of events keeps the invariant |
| MachineProperties.ReachableInv | project_bot_hw.py:258-302 | every state reached from process start satisfies the invariant |
| MachineProperties.StepKeepsOwners | project_bot_hw.py:113-122 | no event removes an owner from a registry |
| MachineProperties.RunKeepsOwners | project_bot_hw.py:113-122 | no sequence of events removes an owner from a registry |
| MachineProperties.NeverStartedNeverRegistered | project_bot_hw.py:160-169 | only `/start` calls `get_or_create_*`: an owner who sends no `/start` in a run stays unregistered in both registries, so `get` keeps returning `None` |
| MachineProperties.StepKeepsChosenDays | project_bot_hw.py:299-300 | with keyboard input, every stored `chosen_weekday` names a weekday, and each event keeps this |
| MachineProperties.RunKeepsChosenDays | project_bot_hw.py:299-300 | the same for any sequence of keyboard input |
| MachineProperties.StepNeverRaisesOnceStarted | project_bot_hw.py:191-344 | in a reachable state, after the user's `/start`, no keyboard input from that user raises |
| MachineProperties.NoRaiseAfterStart | project_bot_hw.py:195 | from process start, once a user has sent `/start`, keyboard input from that user never makes a handler raise |
| MachineProperties.StepFrame | project_bot_hw.py:160-344 | an event from one user leaves every other user's state, data and resources unchanged |
| MachineProperties.StepLocal | project_bot_hw.py:160-344 | what an event does to its sender, and the reply, depend only on what is kept about the sender |
| MachineProperties.Interleaving | project_bot_hw.py:160-344 | a user's part of the state after any interleaved run equals the part after that user's own events alone |
| MachineProperties.ScenarioEditSchedule | project_bot_hw.py:275-323 | start, edit schedule, Monday, text: Monday's schedule is the text, the echo is the text, and the user is still editing Monday |
| MachineProperties.ScenarioShowUnsetHomework | project_bot_hw.py:212-241 | start, show homework, Friday with nothing stored: "add it first", nothing changes |
| MachineProperties.ScenarioShowWithoutStart | project_bot_hw.py:224-236 | show homework then Friday without `/start`: `AttributeError`, nothing changes |
| MachineProperties.ScenarioTwoUsers | project_bot_hw.py:305-323 | two users who edit the same day with different texts, interleaved in any order, each keep their own text |
| Bot.Conversation.constructor | project_bot_hw.py:156-157 | the dispatcher starts with fresh, empty registries, no user states and no data, which satisfies the invariant |
| Bot.Conversation.Start | project_bot_hw.py:160-176 | the `/start` handler updates the registries in place exactly as the model's `/start` says |
| Bot.Conversation.Menu | project_bot_hw.py:179-286 | the menu handlers set the user's state in place exactly as the model says |
| Bot.Conversation.ShowForDay | project_bot_hw.py:191-241 | the view handlers reply exactly as the model's view step says, changing nothing |
| Bot.Conversation.ChooseDayToEdit | project_bot_hw.py:258-302 | the weekday handlers of the edit flows update `chosen_weekday` and the state in place exactly as the model says |
| Bot.Conversation.SaveText | project_bot_hw.py:305-344 | the text handlers write in place and reply exactly as the model says |
| Bot.Conversation.Step | project_bot_hw.py:160-344 | dispatching one event updates the object and replies exactly as `Machine.Step`, and keeps the invariant of reachable states |

## Left out

- Transport: receiving updates, `message.answer`, `bot.send_message`, the
  bootstrap at project_bot_hw.py:156-157 and 382-383. Replies are tags with
  their payload (`Machine.Reply`), not the Russian texts or keyboards.
- `show_a_cat` and `get_cat` (project_bot_hw.py:349-379) do HTTP requests and
  pick a random caption. Only their effect on state is modelled: none, reply `CatPicture`.
- The keyboard layout of mw_keyboard.py. Only its callback payloads are used:
  the menu ids become `Machine.MenuItem`, and the weekday payloads become the
  string of `Machine.WeekdayPicked`.
- The parsing of updates is not modelled. aiogram's command filter decides
  what is `/start`, the `CallbackData` filter splits out the weekday, and any
  other text is free text. Events arrive already classified as `Machine.Event`.
  Non-text messages are not modelled: no handler is registered for them, so
  they would be dropped.
- aiogram's storage keys state by chat and user. The model keys it by user
  id only, which is the same key in private chats.
- Async handlers and interleaving inside a handler are not modelled. Events
  are handled one at a time. `MachineProperties.Interleaving` covers
  interleaving of whole events.
- The instances of `Schedule` and `Homework` are represented by their owner's
  entry in the registry. The `owner_id` field (never read) and object identity
  are not modelled separately. Nothing in the core keeps an instance after
  the handler returns, so writing through the returned instance is the same as
  updating the registry entry.
- `logging`, the `__str__` methods and the greeting's formatting are cosmetic.
