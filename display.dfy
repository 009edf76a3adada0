/**
 * The display classifiers of `display_weather_info`: the temperature emoji
 * (`get_temp_emoji`), the colour chosen from the weather description, and the
 * Fahrenheit figures. Temperatures are `real`: the source's `f64` only compares here.
 */
module Display {

  // ---------------------------------------------------------------------------
  // Temperature emoji: `get_temp_emoji`
  // ---------------------------------------------------------------------------

  datatype Emoji = Snowflake | Cloud | SunBehindCloud | SunBehindSmallCloud | Fire

  /** The text the program prints for each emoji. */
  function Glyph(e: Emoji): string
  {
    match e
    case Snowflake => "\U{2744}\U{FE0F}"
    case Cloud => "\U{2601}\U{FE0F}"
    case SunBehindCloud => "\U{26C5}"
    case SunBehindSmallCloud => "\U{1F324}\U{FE0F}"
    case Fire => "\U{1F525}"
  }

  /** Position of an emoji's bin on the temperature scale, coldest first. */
  function Bin(e: Emoji): nat
  {
    match e
    case Snowflake => 0
    case Cloud => 1
    case SunBehindCloud => 2
    case SunBehindSmallCloud => 3
    case Fire => 4
  }

  /**
   * `get_temp_emoji`, written as the source's if/else chain. Its contract gives
   * each emoji its half-open bin: (-inf,0), [0,10), [10,20), [20,30), [30,inf).
   */
  function TempEmoji(t: real): (e: Emoji)
    ensures e == Snowflake <==> t < 0.0
    ensures e == Cloud <==> 0.0 <= t < 10.0
    ensures e == SunBehindCloud <==> 10.0 <= t < 20.0
    ensures e == SunBehindSmallCloud <==> 20.0 <= t < 30.0
    ensures e == Fire <==> 30.0 <= t
  {
    if t < 0.0 then Snowflake
    else if t >= 0.0 && t < 10.0 then Cloud
    else if t >= 10.0 && t < 20.0 then SunBehindCloud
    else if t >= 20.0 && t < 30.0 then SunBehindSmallCloud
    else Fire
  }

  /** The values at and just below each bin edge. */
  lemma TempEmojiBoundaries()
    ensures TempEmoji(-0.1) == Snowflake
    ensures TempEmoji(0.0) == Cloud && TempEmoji(9.9) == Cloud
    ensures TempEmoji(10.0) == SunBehindCloud
    ensures TempEmoji(20.0) == SunBehindSmallCloud && TempEmoji(29.9) == SunBehindSmallCloud
    ensures TempEmoji(30.0) == Fire
  {
  }

  /** A warmer temperature never gets a colder emoji. */
  lemma TempEmojiMonotone(t1: real, t2: real)
    requires t1 <= t2
    ensures Bin(TempEmoji(t1)) <= Bin(TempEmoji(t2))
  {
  }

  /** Different emojis print differently, so the enumeration loses nothing. */
  lemma GlyphsDistinct(e1: Emoji, e2: Emoji)
    requires e1 != e2
    ensures Glyph(e1) != Glyph(e2)
  {
  }

  // ---------------------------------------------------------------------------
  // Colour: the `match description.as_str()` of `display_weather_info`
  // ---------------------------------------------------------------------------

  datatype Style = BrightYellow | BrightBlue | Dimmed | BrightCyan | Normal

  const ClearSky: string := "clear sky"
  const CloudDescriptions: set<string> := {"few clouds", "scattered clouds", "broken clouds"}
  const HazeDescriptions: set<string> :=
    {"overcast clouds", "mist", "haze", "smoke", "sand", "dust", "fog", "squalls"}
  const WetDescriptions: set<string> := {"shower rain", "rain", "thunderstorm", "snow"}

  /**
   * The style of the report, by exact match on the description, arms tried in the
   * source's order. The contract characterises each style by its own table alone,
   * so the order of the arms does not matter.
   */
  function DescriptionStyle(d: string): (s: Style)
    ensures s == BrightYellow <==> d == ClearSky
    ensures s == BrightBlue <==> d in CloudDescriptions
    ensures s == Dimmed <==> d in HazeDescriptions
    ensures s == BrightCyan <==> d in WetDescriptions
    ensures s == Normal <==>
            d != ClearSky && d !in CloudDescriptions && d !in HazeDescriptions && d !in WetDescriptions
  {
    if d == ClearSky then BrightYellow
    else if d in CloudDescriptions then BrightBlue
    else if d in HazeDescriptions then Dimmed
    else if d in WetDescriptions then BrightCyan
    else Normal
  }

  /** No description appears in two arms of the match. */
  lemma DescriptionTablesDisjoint()
    ensures ClearSky !in CloudDescriptions && ClearSky !in HazeDescriptions && ClearSky !in WetDescriptions
    ensures CloudDescriptions * HazeDescriptions == {}
    ensures CloudDescriptions * WetDescriptions == {}
    ensures HazeDescriptions * WetDescriptions == {}
  {
  }

  lemma DescriptionStyleExamples()
    ensures DescriptionStyle("clear sky") == BrightYellow
    ensures DescriptionStyle("thunderstorm") == BrightCyan
    ensures DescriptionStyle("overcast clouds") == Dimmed
    ensures DescriptionStyle("tornado") == Normal
    ensures DescriptionStyle("Clear sky") == Normal
  {
  }

  // ---------------------------------------------------------------------------
  // Fahrenheit figures of the report
  // ---------------------------------------------------------------------------

  /**
   * `(t * 1.8) + 32.0`, over the reals. The Fahrenheit figure is above the Celsius
   * one exactly above -40 degrees, where the two scales meet.
   */
  function Fahrenheit(c: real): (f: real)
    ensures f > c <==> c > -40.0
    ensures f == c <==> c == -40.0
  {
    c * 1.8 + 32.0
  }

  lemma FahrenheitExamples()
    ensures Fahrenheit(0.0) == 32.0
    ensures Fahrenheit(100.0) == 212.0
    ensures Fahrenheit(-40.0) == -40.0
  {
  }
}
