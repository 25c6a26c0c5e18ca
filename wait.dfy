/**
 * The delay of a Wait state (`buildWaitState`).  `Seconds`, when it is
 * truthy and converts to a number, gives the delay; otherwise `SecondsPath`,
 * when given, is looked up in the `input` member of the state's input; otherwise
 * the delay is 0.  The number found is multiplied by 1000.
 */
module WaitTime {
  import opened Wrappers
  import opened JsonValues
  import opened Paths
  import opened Definition

  datatype Delay =
    /** The delay in milliseconds. */
    | Millis(ms: int)
    /** The number was NaN: the error is reported and the text `"true"` is returned instead of a delay. */
    | NotANumber(message: string)
    /** Reading `event.input` threw because the input was `null`. */
    | Threw(error: Thrown)

  const NotANumberMessage := "Specified wait time is not a number"

  /** `event.input`: a member of an object; anything else has no such member. */
  function InputMember(event: Json): Option<Json>
  {
    if event.JObj? && "input" in event.fields then Some(event.fields["input"]) else None
  }

  /**
   * `buildWaitState(stateInfo, event)`.  A delay is always a whole number of
   * seconds; a non-zero one comes from `Seconds` or `SecondsPath`; only a
   * `SecondsPath` can be NaN, and only a `null` input makes it throw.
   */
  function BuildWaitState(st: State, event: Json): (d: Delay)
    ensures d.Millis? ==> d.ms % 1000 == 0
    ensures d.Millis? && d.ms != 0 ==> st.Seconds.Some? || st.SecondsPath.Some?
    ensures d.NotANumber? ==> st.SecondsPath.Some? && d.message == NotANumberMessage
    ensures d.Threw? ==> event.JNull? && st.SecondsPath.Some?
  {
    if st.Seconds.Some? && Truthy(st.Seconds.value) && ToNumber(st.Seconds.value).Some? then
      Millis(ToNumber(st.Seconds.value).value * 1000)
    else if st.SecondsPath.Some? && st.SecondsPath.value != "" && event.JNull? then
      Threw(TypeError("Cannot read properties of null (reading 'input')"))
    else if st.SecondsPath.Some? && st.SecondsPath.value != ""
            && InputMember(event).Some? && Truthy(InputMember(event).value) then
      match Select(InputMember(event).value, st.SecondsPath.value)
      case None => NotANumber(NotANumberMessage)
      case Some(v) =>
        match ToNumber(v)
        case None => NotANumber(NotANumberMessage)
        case Some(n) => Millis(n * 1000)
    else
      Millis(0)
  }

  /** A non-zero number of seconds, given as a number or as its text, waits that many thousand milliseconds. */
  lemma WaitFromSeconds(st: State, event: Json, n: int)
    requires n != 0
    requires st.Seconds == Some(JNum(n)) || st.Seconds == Some(JStr(IntToString(n)))
    ensures BuildWaitState(st, event) == Millis(n * 1000)
  {
    NumberTextRoundTrip(n);
    if st.Seconds == Some(JStr(IntToString(n))) {
      assert IntToString(n) != "" by {
        if n < 0 { } else { assert |NatToString(n)| >= 1; }
      }
    }
  }

  /**
   * Without usable `Seconds`, a `SecondsPath` into a truthy `input` member
   * waits 1000 times the number its first match converts to, and reports NaN
   * when there is no match or it does not convert.
   */
  lemma WaitFromSecondsPath(st: State, event: Json, p: string)
    requires st.Seconds.None? || !Truthy(st.Seconds.value) || ToNumber(st.Seconds.value).None?
    requires st.SecondsPath == Some(p) && p != ""
    requires event.JObj? && "input" in event.fields && Truthy(event.fields["input"])
    ensures var found := Select(event.fields["input"], p);
            && (found.Some? && ToNumber(found.value).Some? ==>
                  BuildWaitState(st, event) == Millis(1000 * ToNumber(found.value).value))
            && (found.None? || ToNumber(found.value).None? ==>
                  BuildWaitState(st, event) == NotANumber(NotANumberMessage))
  {
  }

  /**
   * Without a usable `Seconds` (absent, falsy or not a number), and without a
   * `SecondsPath` that can be followed (absent, empty, or the input has no
   * truthy `input` member), there is no wait.
   */
  lemma WaitDefault(st: State, event: Json)
    requires st.Seconds.None? || !Truthy(st.Seconds.value) || ToNumber(st.Seconds.value).None?
    requires || st.SecondsPath.None? || st.SecondsPath == Some("")
             || (!event.JNull? && (InputMember(event).None? || !Truthy(InputMember(event).value)))
    ensures BuildWaitState(st, event) == Millis(0)
  {
  }

  /** Without a usable `Seconds`, a `SecondsPath` on a `null` input throws when `event.input` is read. */
  lemma WaitNullEvent(st: State, p: string)
    requires st.Seconds.None? || !Truthy(st.Seconds.value) || ToNumber(st.Seconds.value).None?
    requires st.SecondsPath == Some(p) && p != ""
    ensures BuildWaitState(st, JNull) == Threw(TypeError("Cannot read properties of null (reading 'input')"))
  {
  }
}
