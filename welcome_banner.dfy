/**
 * The dashboard greeting of `components/user/welcome-banner.tsx`.  The hour
 * of the local clock (`new Date().getHours()`, 0 to 23) is an input.
 */
module WelcomeBanner {
  import opened Wrappers

  const Morning := "Good morning"
  const Afternoon := "Good afternoon"
  const Evening := "Good evening"

  /** `getGreeting`: before 12 morning, before 17 afternoon, evening after. */
  function Greeting(hour: int): (g: string)
    ensures g == Morning <==> hour < 12
    ensures g == Afternoon <==> 12 <= hour < 17
    ensures g == Evening <==> hour >= 17
  {
    if hour < 12 then Morning
    else if hour < 17 then Afternoon
    else Evening
  }

  /** Over a day the greeting moves forward only: morning, then afternoon, then evening. */
  lemma GreetingMonotone(h1: int, h2: int)
    requires h1 <= h2
    ensures Greeting(h1) == Evening ==> Greeting(h2) == Evening
    ensures Greeting(h2) == Morning ==> Greeting(h1) == Morning
  {
  }

  /** The heading: the greeting, ", name" when a non-empty name is given, then "!". */
  function Heading(hour: int, userName: Option<string>): (h: string)
    ensures userName.Some? && userName.value != "" ==> h == Greeting(hour) + ", " + userName.value + "!"
    ensures userName.None? || userName == Some("") ==> h == Greeting(hour) + "!"
  {
    var suffix := match userName case Some(n) => if n != "" then ", " + n else "" case None => "";
    Greeting(hour) + suffix + "!"
  }

  /** The heading always opens with the greeting and closes with "!". */
  lemma HeadingShape(hour: int, userName: Option<string>)
    ensures var h := Heading(hour, userName);
      |h| > |Greeting(hour)| && h[..|Greeting(hour)|] == Greeting(hour) && h[|h| - 1] == '!'
  {
    var g := Greeting(hour);
    var h := Heading(hour, userName);
    if userName.Some? && userName.value != "" {
      assert h == g + (", " + userName.value + "!");
    } else {
      assert h == g + "!";
    }
  }
}
