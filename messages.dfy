/** The information message a training produces about itself: five stored
    values and the text rendered from them once, when the message is built. */
module Messages {

  datatype Option<T> = None | Some(value: T)

  /** An `InfoMessage`: the training's type name, its duration (hours),
      distance (km), mean speed (km/h), spent calories, and the text built
      from them. Nothing in it changes after construction. */
  datatype InfoMessage = InfoMessage(
    trainingType: string,
    duration: real,
    distance: real,
    speed: real,
    calories: real,
    trainingInfo: string)

  /** The fixed pieces of the message template, in order. */
  const TYPE_LABEL: string := "Тип тренировки: "
  const DURATION_LABEL: string := "; Длительность: "
  const DISTANCE_LABEL: string := " ч.; Дистанция: "
  const SPEED_LABEL: string := " км; Ср. скорость: "
  const CALORIES_LABEL: string := " км/ч; Потрачено ккал: "
  const FIELD_SEPARATOR: char := ';'

  /** The message text. `fmt` stands for the three-decimal rendering of a
      number, which this model does not interpret; every number goes
      through the same `fmt`. */
  function Render(trainingType: string, duration: real, distance: real, speed: real,
                  calories: real, fmt: real -> string): (s: string)
    ensures TYPE_LABEL + trainingType + [FIELD_SEPARATOR] <= s
    ensures |s| > 0 && s[|s| - 1] == '.'
  {
    var text := TYPE_LABEL + trainingType + DURATION_LABEL + fmt(duration)
      + DISTANCE_LABEL + fmt(distance) + SPEED_LABEL + fmt(speed)
      + CALORIES_LABEL + fmt(calories) + ".";
    assert (TYPE_LABEL + trainingType + DURATION_LABEL)[..|TYPE_LABEL| + |trainingType| + 1]
      == TYPE_LABEL + trainingType + [FIELD_SEPARATOR];
    text
  }

  /** The message's text is the template filled with its own five values. */
  predicate Rendered(m: InfoMessage, fmt: real -> string)
  {
    m.trainingInfo == Render(m.trainingType, m.duration, m.distance, m.speed, m.calories, fmt)
  }

  /** Builds a message: stores the five values and renders the text once. */
  function NewInfoMessage(trainingType: string, duration: real, distance: real, speed: real,
                          calories: real, fmt: real -> string): (m: InfoMessage)
    ensures m.trainingType == trainingType && m.duration == duration
    ensures m.distance == distance && m.speed == speed && m.calories == calories
    ensures Rendered(m, fmt)
  {
    InfoMessage(trainingType, duration, distance, speed, calories,
                Render(trainingType, duration, distance, speed, calories, fmt))
  }

  /** The stored text, returned as is on every call. */
  function GetMessage(m: InfoMessage): (s: string)
    ensures s == m.trainingInfo
  {
    m.trainingInfo
  }

  /** The text a new message returns is the template filled with the values
      it was built from, whatever the numbers render as. */
  lemma NewMessageText(trainingType: string, duration: real, distance: real, speed: real,
                       calories: real, fmt: real -> string)
    ensures GetMessage(NewInfoMessage(trainingType, duration, distance, speed, calories, fmt))
         == Render(trainingType, duration, distance, speed, calories, fmt)
  {
  }

  /** The characters of `s` before the first occurrence of `c` (all of `s`
      if `c` does not occur). */
  function TakeUntil(s: string, c: char): (r: string)
    ensures r <= s && c !in r
  {
    if s == [] || s[0] == c then [] else [s[0]] + TakeUntil(s[1..], c)
  }

  /** Reads the training type back out of a message text: what stands
      between the type label and the first field separator. */
  function ParseType(s: string): (r: Option<string>)
    ensures r.Some? <==> TYPE_LABEL <= s
  {
    if TYPE_LABEL <= s then Some(TakeUntil(s[|TYPE_LABEL|..], FIELD_SEPARATOR)) else None
  }

  lemma {:induction false} TakeUntilStopsAtSeparator(t: string, rest: string, c: char)
    requires c !in t
    ensures TakeUntil(t + [c] + rest, c) == t
  {
    if t != [] {
      assert (t + [c] + rest)[1..] == t[1..] + [c] + rest;
      TakeUntilStopsAtSeparator(t[1..], rest, c);
    }
  }

  /** The message text names its training type unambiguously: the type can
      be read back from the text, whatever the numbers render as. */
  lemma MessageNamesType(m: InfoMessage, fmt: real -> string)
    requires FIELD_SEPARATOR !in m.trainingType
    requires Rendered(m, fmt)
    ensures ParseType(GetMessage(m)) == Some(m.trainingType)
  {
    var s := GetMessage(m);
    var rest := s[|TYPE_LABEL| + |m.trainingType| + 1..];
    assert s[|TYPE_LABEL|..] == m.trainingType + [FIELD_SEPARATOR] + rest;
    TakeUntilStopsAtSeparator(m.trainingType, rest, FIELD_SEPARATOR);
  }

  /** Two messages whose types differ have different texts. */
  lemma MessagesOfDifferentTypesDiffer(m1: InfoMessage, m2: InfoMessage, fmt: real -> string)
    requires FIELD_SEPARATOR !in m1.trainingType && FIELD_SEPARATOR !in m2.trainingType
    requires Rendered(m1, fmt) && Rendered(m2, fmt)
    requires m1.trainingType != m2.trainingType
    ensures GetMessage(m1) != GetMessage(m2)
  {
    MessageNamesType(m1, fmt);
    MessageNamesType(m2, fmt);
  }
}
