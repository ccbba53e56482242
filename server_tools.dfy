/**
 * The pure tool bodies of the Python MCP server: `text_utils`,
 * `generate_greeting` and `get_weather`. Their JSON replies are records.
 * Case mapping is ASCII-only.
 */
module ServerTools {
  import opened Wrappers

  // ---------------------------------------------------------------------------
  // Characters
  // ---------------------------------------------------------------------------

  /** The characters Python's `str.split()` with no argument treats as whitespace. */
  predicate IsSpace(c: char) {
    || ('\t' <= c <= '\r')
    || ('\U{1C}' <= c <= '\U{1F}')
    || c == ' '
    || c == '\U{85}'
    || c == '\U{A0}'
    || c == '\U{1680}'
    || ('\U{2000}' <= c <= '\U{200A}')
    || c == '\U{2028}'
    || c == '\U{2029}'
    || c == '\U{202F}'
    || c == '\U{205F}'
    || c == '\U{3000}'
  }

  predicate IsAsciiUpper(c: char) { 'A' <= c <= 'Z' }
  predicate IsAsciiLower(c: char) { 'a' <= c <= 'z' }

  function UpperChar(c: char): char {
    if IsAsciiLower(c) then (c as int - 32) as char else c
  }

  function LowerChar(c: char): char {
    if IsAsciiUpper(c) then (c as int + 32) as char else c
  }

  /** `str.upper()` on ASCII letters: same length, each character mapped. */
  function Upper(s: string): (r: string)
    ensures |r| == |s|
    ensures forall i :: 0 <= i < |s| ==> r[i] == UpperChar(s[i])
  {
    if s == [] then [] else [UpperChar(s[0])] + Upper(s[1..])
  }

  /** `str.lower()` on ASCII letters: same length, each character mapped. */
  function Lower(s: string): (r: string)
    ensures |r| == |s|
    ensures forall i :: 0 <= i < |s| ==> r[i] == LowerChar(s[i])
  {
    if s == [] then [] else [LowerChar(s[0])] + Lower(s[1..])
  }

  /** Lowercasing is idempotent and forgets any earlier uppercasing. */
  lemma LowerIdempotent(s: string)
    ensures Lower(Lower(s)) == Lower(s)
    ensures Lower(Upper(s)) == Lower(s)
    ensures Upper(Upper(s)) == Upper(s)
  {
  }

  // ---------------------------------------------------------------------------
  // text_utils
  // ---------------------------------------------------------------------------

  /** `t[::-1]`. */
  function Reverse(s: string): (r: string)
    ensures |r| == |s|
  {
    if s == [] then [] else Reverse(s[1..]) + [s[0]]
  }

  /** Position `k` of the reversal holds position `|s| - 1 - k` of the text. */
  lemma {:induction false} ReverseIndex(s: string)
    ensures forall k :: 0 <= k < |s| ==> Reverse(s)[k] == s[|s| - 1 - k]
  {
    if s != [] {
      ReverseIndex(s[1..]);
      assert Reverse(s) == Reverse(s[1..]) + [s[0]];
    }
  }

  /** Reversing twice restores the text. */
  lemma ReverseInvolutive(s: string)
    ensures Reverse(Reverse(s)) == s
  {
    ReverseIndex(s);
    ReverseIndex(Reverse(s));
  }

  /** The longest prefix of `s` free of whitespace. */
  function WordPrefix(s: string): (w: string)
    ensures |w| <= |s| && w == s[..|w|]
    ensures forall i :: 0 <= i < |w| ==> !IsSpace(w[i])
    ensures |w| < |s| ==> IsSpace(s[|w|])
  {
    if s == [] || IsSpace(s[0]) then [] else [s[0]] + WordPrefix(s[1..])
  }

  /** `str.split()` with no argument: the maximal runs of non-whitespace characters. */
  function Words(s: string): (ws: seq<string>)
    ensures forall k :: 0 <= k < |ws| ==> ws[k] != []
    ensures forall k, i :: 0 <= k < |ws| && 0 <= i < |ws[k]| ==> !IsSpace(ws[k][i])
    decreases |s|
  {
    if s == [] then []
    else if IsSpace(s[0]) then Words(s[1..])
    else
      var w := WordPrefix(s);
      [w] + Words(s[|w|..])
  }

  /**
   * Reference count of words: the positions where a run of non-whitespace
   * begins, `afterSpace` telling whether the character before `s` was
   * whitespace (or `s` starts the text).
   */
  function RunStarts(s: string, afterSpace: bool): nat
    decreases |s|
  {
    if s == [] then 0
    else (if afterSpace && !IsSpace(s[0]) then 1 else 0) + RunStarts(s[1..], IsSpace(s[0]))
  }

  /** Inside a word no run begins before the word has ended. */
  lemma {:induction false} RunStartsSkipWord(s: string)
    requires s != [] && !IsSpace(s[0])
    ensures RunStarts(s, false) == RunStarts(s[|WordPrefix(s)|..], true)
    decreases |s|
  {
    var t := s[1..];
    if t == [] || IsSpace(t[0]) {
      assert WordPrefix(s) == [s[0]];
    } else {
      RunStartsSkipWord(t);
      assert WordPrefix(s) == [s[0]] + WordPrefix(t);
      assert s[|WordPrefix(s)|..] == t[|WordPrefix(t)|..];
    }
  }

  /** The word count is the number of maximal non-whitespace runs. */
  lemma {:induction false} WordsCountRuns(s: string)
    ensures |Words(s)| == RunStarts(s, true)
    decreases |s|
  {
    if s != [] {
      if IsSpace(s[0]) {
        WordsCountRuns(s[1..]);
      } else {
        var w := WordPrefix(s);
        WordsCountRuns(s[|w|..]);
        RunStartsSkipWord(s);
      }
    }
  }

  /** The operations `text_utils` supports, in the order it lists them. */
  const SupportedOperations: seq<string> :=
    ["uppercase", "lowercase", "reverse", "word_count", "char_count"]

  datatype TextValue = Text(text: string) | Count(count: nat)

  /** The reply of `text_utils`. */
  datatype TextUtilsReply =
    | TextResult(result: TextValue, operation: string, originalText: string)
    | UnknownOperation(error: string, supported: seq<string>)

  /** `text_utils(text, operation)`. */
  function TextUtils(text: string, operation: string): (r: TextUtilsReply)
    ensures r.UnknownOperation? <==> operation !in SupportedOperations
    ensures r.UnknownOperation? ==>
      r.error == "Unknown operation: " + operation && r.supported == SupportedOperations
    ensures r.TextResult? ==> r.operation == operation && r.originalText == text
  {
    var result :=
      if operation == "uppercase" then Some(Text(Upper(text)))
      else if operation == "lowercase" then Some(Text(Lower(text)))
      else if operation == "reverse" then Some(Text(Reverse(text)))
      else if operation == "word_count" then Some(Count(|Words(text)|))
      else if operation == "char_count" then Some(Count(|text|))
      else None;
    match result
    case Some(value) => TextResult(value, operation, text)
    case None => UnknownOperation("Unknown operation: " + operation, SupportedOperations)
  }

  /** "reverse" yields a text of the same length whose reversal is the input. */
  lemma TextUtilsReverse(text: string)
    ensures TextUtils(text, "reverse").TextResult?
    ensures var v := TextUtils(text, "reverse").result;
      v.Text? && |v.text| == |text| && Reverse(v.text) == text
  {
    ReverseInvolutive(text);
  }

  /** "char_count" yields the number of characters. */
  lemma TextUtilsCharCount(text: string)
    ensures TextUtils(text, "char_count") == TextResult(Count(|text|), "char_count", text)
  {
  }

  /** "word_count" yields the number of maximal non-whitespace runs. */
  lemma TextUtilsWordCount(text: string)
    ensures TextUtils(text, "word_count") == TextResult(Count(RunStarts(text, true)), "word_count", text)
  {
    WordsCountRuns(text);
  }

  /** "uppercase" yields the upper-cased text: same length, no lower-case ASCII letter left. */
  lemma TextUtilsUppercase(text: string)
    ensures TextUtils(text, "uppercase") == TextResult(Text(Upper(text)), "uppercase", text)
    ensures forall i :: 0 <= i < |text| ==> !IsAsciiLower(Upper(text)[i])
  {
  }

  /** "lowercase" yields the lower-cased text: same length, no upper-case ASCII letter left. */
  lemma TextUtilsLowercase(text: string)
    ensures TextUtils(text, "lowercase") == TextResult(Text(Lower(text)), "lowercase", text)
    ensures forall i :: 0 <= i < |text| ==> !IsAsciiUpper(Lower(text)[i])
  {
  }
  // ---------------------------------------------------------------------------
  // generate_greeting
  // ---------------------------------------------------------------------------

  /**
   * The four characters framing the enthusiastic greeting, as the server's
   * source text holds them: U+00F0 U+0178 U+017D U+2030, the UTF-8 bytes of
   * the party-popper emoji read back as Windows-1252 and encoded again.
   */
  const Banner: string := "\U{F0}\U{178}\U{17D}\U{2030}"

  /** The greetings table of `generate_greeting`, keyed by style. */
  function Greetings(name: string): map<string, string> {
    map[
      "formal" := "Dear " + name + ", I hope this message finds you well.",
      "casual" := "Hey " + name + "! How's it going?",
      "enthusiastic" := Banner + " Hello " + name + "! Great to see you! " + Banner]
  }

  /** The reply of `generate_greeting`. */
  datatype GreetingReply = GreetingReply(name: string, style: string, greeting: string)

  /** `generate_greeting(name, style)`: an unknown style falls back to the casual greeting. */
  function GenerateGreeting(name: string, style: string := "casual"): (r: GreetingReply)
    ensures r.name == name && r.style == style
    ensures style in Greetings(name) ==> r.greeting == Greetings(name)[style]
    ensures style !in Greetings(name) ==> r.greeting == Greetings(name)["casual"]
  {
    var greetings := Greetings(name);
    GreetingReply(name, style, if style in greetings then greetings[style] else greetings["casual"])
  }

  /** `sub` occurs in `s` starting at position `i`. */
  predicate OccursAt(s: string, sub: string, i: int) {
    0 <= i <= |s| - |sub| && s[i..i + |sub|] == sub
  }

  /** `sub` occurs in `s` as a contiguous block. */
  predicate Embeds(s: string, sub: string) {
    exists i :: 0 <= i <= |s| && OccursAt(s, sub, i)
  }

  /** The styles with a greeting of their own. */
  lemma GreetingStyles(name: string)
    ensures Greetings(name).Keys == {"formal", "casual", "enthusiastic"}
  {
  }

  /** An unknown style gets the casual greeting but is still echoed. */
  lemma UnknownStyleIsCasual(name: string, style: string)
    requires style != "formal" && style != "casual" && style != "enthusiastic"
    ensures GenerateGreeting(name, style) ==
      GreetingReply(name, style, GenerateGreeting(name, "casual").greeting)
  {
  }

  /** Every greeting, whatever the style, contains the name. */
  lemma GreetingEmbedsName(name: string, style: string)
    ensures Embeds(GenerateGreeting(name, style).greeting, name)
  {
    var g := GenerateGreeting(name, style).greeting;
    var at := if style == "formal" then 5 else if style == "enthusiastic" then 11 else 4;
    assert OccursAt(g, name, at);
  }

  /** The three styles yield three different greetings. */
  lemma GreetingsDiffer(name: string)
    ensures GenerateGreeting(name, "formal").greeting != GenerateGreeting(name, "casual").greeting
    ensures GenerateGreeting(name, "formal").greeting != GenerateGreeting(name, "enthusiastic").greeting
    ensures GenerateGreeting(name, "casual").greeting != GenerateGreeting(name, "enthusiastic").greeting
  {
  }

  // ---------------------------------------------------------------------------
  // get_weather
  // ---------------------------------------------------------------------------

  /** One row of the mock weather table. */
  datatype WeatherRow = WeatherRow(temp: int, condition: string, humidity: int)

  /** The mock weather table, keyed by lower-case city name. */
  const MockWeather: map<string, WeatherRow> := map[
    "new york" := WeatherRow(22, "Partly Cloudy", 65),
    "london" := WeatherRow(15, "Rainy", 80),
    "tokyo" := WeatherRow(28, "Sunny", 55),
    "paris" := WeatherRow(18, "Overcast", 70),
    "sydney" := WeatherRow(25, "Clear", 50)]

  const DefaultWeather: WeatherRow := WeatherRow(20, "Unknown", 60)
  const MockNote: string := "This is mock data for demonstration"
  const DefaultNote: string := "City not found in mock data, returning defaults"

  /** The reply of `get_weather`. */
  datatype WeatherReply = WeatherReply(
    city: string,
    temperatureCelsius: int,
    condition: string,
    humidityPercent: int,
    note: string)

  /**
   * `get_weather(city)`: the table row of the lower-cased city, or the
   * defaults; the city is echoed as given.
   */
  function GetWeather(city: string): (r: WeatherReply)
    ensures r.city == city
    ensures Lower(city) in MockWeather ==>
      var row := MockWeather[Lower(city)];
      r.temperatureCelsius == row.temp && r.condition == row.condition
      && r.humidityPercent == row.humidity && r.note == MockNote
    ensures Lower(city) !in MockWeather ==>
      r.temperatureCelsius == 20 && r.condition == "Unknown" && r.humidityPercent == 60
      && r.note == DefaultNote
  {
    var cityLower := Lower(city);
    if cityLower in MockWeather then
      var row := MockWeather[cityLower];
      WeatherReply(city, row.temp, row.condition, row.humidity, MockNote)
    else
      WeatherReply(city, DefaultWeather.temp, DefaultWeather.condition, DefaultWeather.humidity, DefaultNote)
  }

  /** The lookup ignores ASCII case: two spellings of a city differ only in the echoed city. */
  lemma WeatherIgnoresCase(a: string, b: string)
    requires Lower(a) == Lower(b)
    ensures GetWeather(a).(city := b) == GetWeather(b)
  {
  }

  /** Every key of the table is already lower case, so each city is found under its own name. */
  lemma MockCitiesFound(city: string)
    requires city in MockWeather
    ensures Lower(city) == city
    ensures GetWeather(city).temperatureCelsius == MockWeather[city].temp && GetWeather(city).note == MockNote
  {
    MockCityNames(city);
    MockCityNamesLowerCase(city);
  }

  /** The keys of the mock table. */
  lemma MockCityNames(city: string)
    requires city in MockWeather
    ensures city == "new york" || city == "london" || city == "tokyo" || city == "paris" || city == "sydney"
  {
  }

  lemma MockCityNamesLowerCase(city: string)
    requires city == "new york" || city == "london" || city == "tokyo" || city == "paris" || city == "sydney"
    ensures Lower(city) == city
  {
  }

  /** An upper-case spelling of a known city finds its row. */
  lemma WeatherTokyo()
    ensures GetWeather("TOKYO") == WeatherReply("TOKYO", 28, "Sunny", 55, MockNote)
  {
    assert Lower("TOKYO") == "tokyo";
  }
}
