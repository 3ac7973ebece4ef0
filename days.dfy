/** The weekday enumeration `Day` and its use as a parser, `Day(x)`. */
module Days {
  import opened Outcomes

  /** The seven members of the `Day` enumeration. */
  datatype Day = Monday | Tuesday | Wednesday | Thursday | Friday | Saturday | Sunday

  /** The value of each member; also the weekday payload of the weekday keyboard's buttons. */
  function Value(d: Day): (r: string)
    ensures |r| >= 6 && r[|r| - 3..] == "day"
    ensures forall c :: c in r ==> 'a' <= c <= 'z'
  {
    match d
    case Monday => "monday"
    case Tuesday => "tuesday"
    case Wednesday => "wednesday"
    case Thursday => "thursday"
    case Friday => "friday"
    case Saturday => "saturday"
    case Sunday => "sunday"
  }

  /** The argument `Day(x)` accepts: a member, or any string. */
  datatype DayArg = Member(day: Day) | Text(text: string)

  /** The strings that name a weekday. */
  predicate IsDayValue(s: string)
  {
    exists d: Day :: Value(d) == s
  }

  /** Lookup of a member by its value. */
  function FromValue(s: string): (r: Option<Day>)
    ensures forall d: Day :: r == Some(d) <==> s == Value(d)
    ensures r.None? <==> !IsDayValue(s)
  {
    if s == "monday" then Some(Monday)
    else if s == "tuesday" then Some(Tuesday)
    else if s == "wednesday" then Some(Wednesday)
    else if s == "thursday" then Some(Thursday)
    else if s == "friday" then Some(Friday)
    else if s == "saturday" then Some(Saturday)
    else if s == "sunday" then Some(Sunday)
    else None
  }

  /** `Day(x)`: the identity on members, lookup by value on strings, ValueError otherwise. */
  function Coerce(arg: DayArg): (r: Result<Day>)
    ensures forall d: Day :: r == Ok(d) <==> (arg == Member(d) || arg == Text(Value(d)))
    ensures r.Raise? <==> (arg.Text? && !IsDayValue(arg.text))
    ensures r.Raise? ==> r.error == ValueError
  {
    match arg
    case Member(d) => Ok(d)
    case Text(s) =>
      match FromValue(s)
      case Some(d) => Ok(d)
      case None => Raise(ValueError)
  }

  /** Distinct members have distinct values, so a value names exactly one member. */
  lemma ValueInjective(d: Day, e: Day)
    ensures Value(d) == Value(e) ==> d == e
  {
  }

  /** Parsing the value of a member gives the member back. */
  lemma ParseValue(d: Day)
    ensures Coerce(Text(Value(d))) == Ok(d)
    ensures Coerce(Member(d)) == Ok(d)
  {
  }
}
