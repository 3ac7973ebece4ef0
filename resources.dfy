/**
 * The per-user resources `Schedule` and `Homework`: each instance holds a dict
 * `Day -> str`, and each class keeps a registry `owner id -> instance`.
 * An instance is identified by its owner, so a registry is a map from owner
 * ids to the day texts of that owner's instance.
 */
module Resources {
  import opened Outcomes
  import opened Days

  /** The two resource classes, which behave identically. */
  datatype Kind = Schedule | Homework

  /** The other resource class. */
  function Other(k: Kind): Kind
  {
    if k == Schedule then Homework else Schedule
  }

  /** The registry of one class, given the registries of both. */
  function RegistryOf(kind: Kind, schedules: Registry, homeworks: Registry): Registry
  {
    if kind == Schedule then schedules else homeworks
  }

  /** The dict of one instance (`schedule_by_days` / `homework_by_days`). */
  type DayTexts = map<Day, string>

  /** The class-level registry `__instances__`. */
  type Registry = map<int, DayTexts>

  /** `get_for_day`: the text stored for the day, `None` when there is none; the day is parsed first. */
  function GetForDay(days: DayTexts, arg: DayArg): (r: Result<Option<string>>)
    ensures r.Raise? <==> Coerce(arg).Raise?
    ensures r.Raise? ==> r.error == ValueError
    ensures forall d: Day :: Coerce(arg) == Ok(d) ==> (r == Ok(None) <==> d !in days)
    ensures forall d: Day :: Coerce(arg) == Ok(d) && d in days ==> r == Ok(Some(days[d]))
  {
    match Coerce(arg)
    case Raise(e) => Raise(e)
    case Ok(d) => Ok(if d in days then Some(days[d]) else None)
  }

  /** The dict after `set_for_day(arg, text)`: the day's text is replaced, or ValueError before any write. */
  function SetForDay(days: DayTexts, arg: DayArg, text: string): (r: Result<DayTexts>)
    ensures r.Raise? <==> Coerce(arg).Raise?
    ensures r.Raise? ==> r.error == ValueError
    ensures forall d: Day :: Coerce(arg) == Ok(d) ==>
              r.Ok? && r.value.Keys == days.Keys + {d} && r.value[d] == text
    ensures r.Ok? ==> forall d :: d in days && Coerce(arg) != Ok(d) ==> d in r.value && r.value[d] == days[d]
  {
    match Coerce(arg)
    case Raise(e) => Raise(e)
    case Ok(d) => Ok(days[d := text])
  }

  /** `get`: the owner's instance, `None` for an owner never initialised. */
  function Lookup(reg: Registry, owner: int): (r: Option<DayTexts>)
    ensures r.None? <==> owner !in reg
    ensures r.Some? ==> owner in reg && r.value == reg[owner]
  {
    if owner in reg then Some(reg[owner]) else None
  }

  /** The registry after `get_or_create_*`: an existing instance is kept, otherwise an empty one is inserted. */
  function WithOwner(reg: Registry, owner: int): (r: Registry)
    ensures r.Keys == reg.Keys + {owner}
    ensures owner in reg ==> r[owner] == reg[owner]
    ensures owner !in reg ==> r[owner] == map[]
    ensures forall o :: o in reg ==> r[o] == reg[o]
  {
    if owner in reg then reg else reg[owner := map[]]
  }

  /** Writing a day and reading it back gives exactly the text written, untrimmed. */
  lemma SetThenGet(days: DayTexts, arg: DayArg, text: string)
    requires SetForDay(days, arg, text).Ok?
    ensures GetForDay(SetForDay(days, arg, text).value, arg) == Ok(Some(text))
  {
  }

  /** Writing a day leaves every other day reading as before. */
  lemma SetKeepsOtherDays(days: DayTexts, arg: DayArg, text: string, other: DayArg)
    requires SetForDay(days, arg, text).Ok?
    requires Coerce(other) != Coerce(arg)
    ensures GetForDay(SetForDay(days, arg, text).value, other) == GetForDay(days, other)
  {
  }

  /** A fresh instance holds no text: every weekday reads as `None`. */
  lemma FreshIsEmpty(d: Day)
    ensures GetForDay(map[], Member(d)) == Ok(None)
    ensures GetForDay(map[], Text(Value(d))) == Ok(None)
  {
  }

  /** `get_or_create_*` is idempotent, and `get` afterwards finds the kept or the new empty instance. */
  lemma WithOwnerIdempotent(reg: Registry, owner: int)
    ensures WithOwner(WithOwner(reg, owner), owner) == WithOwner(reg, owner)
    ensures Lookup(WithOwner(reg, owner), owner) == Some(if owner in reg then reg[owner] else map[])
  {
  }

  /**
   * The registries of both classes, updated in place by `get_or_create_*`
   * and by `set_for_day` on a registered instance.
   */
  class ResourceStore {
    var schedules: Registry
    var homeworks: Registry

    /** Both registries start empty. */
    constructor ()
      ensures schedules == map[] && homeworks == map[]
    {
      schedules := map[];
      homeworks := map[];
    }

    /** The registry of one class. */
    function Instances(kind: Kind): Registry
      reads this
    {
      RegistryOf(kind, schedules, homeworks)
    }

    /** `get`: never inserts. */
    function Get(kind: Kind, owner: int): (r: Option<DayTexts>)
      reads this
      ensures r.None? <==> owner !in Instances(kind)
      ensures r.Some? ==> r.value == Instances(kind)[owner]
    {
      Lookup(Instances(kind), owner)
    }

    /** `get_or_create_schedule` / `get_or_create_homework`. */
    method GetOrCreate(kind: Kind, owner: int) returns (days: DayTexts)
      modifies this
      ensures Instances(kind) == WithOwner(old(Instances(kind)), owner)
      ensures Instances(Other(kind)) == old(Instances(Other(kind)))
      ensures days == Instances(kind)[owner]
    {
      if kind == Schedule {
        if owner !in schedules {
          schedules := schedules[owner := map[]];
        }
        days := schedules[owner];
      } else {
        if owner !in homeworks {
          homeworks := homeworks[owner := map[]];
        }
        days := homeworks[owner];
      }
    }

    /** `set_for_day` on the registered instance of `owner`: parse the day, then write in place. */
    method SetForDayOf(kind: Kind, owner: int, arg: DayArg, text: string) returns (r: Result<()>)
      requires owner in Instances(kind)
      modifies this
      ensures r.Raise? <==> Coerce(arg).Raise?
      ensures r.Raise? ==> r.error == ValueError && Instances(kind) == old(Instances(kind))
      ensures r.Ok? ==> Instances(kind) == old(Instances(kind))[owner := SetForDay(old(Instances(kind))[owner], arg, text).value]
      ensures Instances(Other(kind)) == old(Instances(Other(kind)))
    {
      var day := Coerce(arg);
      if day.Raise? {
        return Raise(day.error);
      }
      if kind == Schedule {
        schedules := schedules[owner := schedules[owner][day.value := text]];
      } else {
        homeworks := homeworks[owner := homeworks[owner][day.value := text]];
      }
      r := Ok(());
    }
  }
}
