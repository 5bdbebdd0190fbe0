/** Two pure pieces of `src/ui/components.py`: the music player's duration
    text and the context selector's default time of day and label
    parsing. The widgets themselves are not modelled; the clock's hour is
    a parameter. */
module UiComponents {
  import opened Common
  import opened Text
  import opened Helpers

  /** `MusicPlayerComponent._format_duration`: `M:SS`, with no hour field.
      Python's `//` and `%` by a positive divisor agree with Dafny's. */
  function PlayerDuration(ms: int): string {
    if ms == 0 then "0:00"
    else IntToString(ms / 60000) + ":" + Pad2((ms % 60000) / 1000)
  }

  /** For a non-negative duration the text always has two fields, however
      many minutes, and reads back as the whole seconds. */
  lemma PlayerDurationRoundTrip(ms: int)
    requires ms >= 0
    ensures |Split(PlayerDuration(ms), ':')| == 2
    ensures ParseDuration(PlayerDuration(ms)) == Some(ms / 1000)
  {
    if ms == 0 {
      ShortClockRoundTrip(0, 0);
      assert IntToString(0) == "0" && Pad2(0) == "00";
      assert PlayerDuration(ms) == IntToString(0) + ":" + Pad2(0);
    } else {
      var m := ms / 60000;
      var s := (ms % 60000) / 1000;
      ShortClockRoundTrip(m, s);
      assert ms / 1000 == 60 * m + s;
    }
  }

  /** Below one hour the player and the helper format durations alike. */
  lemma PlayerMatchesHelper(ms: int)
    requires 0 <= ms < 3600000
    ensures PlayerDuration(ms) == FormatDuration(ms)
  {
    if ms != 0 {
      assert (ms / 1000) / 60 == ms / 60000;
      assert (ms / 1000) % 60 == (ms % 60000) / 1000;
    }
  }

  // ---------------------------------------------------------------------
  // Context selector
  // ---------------------------------------------------------------------

  const MORNING := "Morning \U{1F305}"
  const AFTERNOON := "Afternoon \U{2600}\U{FE0F}"
  const EVENING := "Evening \U{1F306}"
  const NIGHT := "Night \U{1F319}"

  /** The time-of-day options, in the order the selector lists them. */
  const TIME_OPTIONS: seq<string> := [MORNING, AFTERNOON, EVENING, NIGHT]

  /** The default time of day for the current hour. */
  function DefaultTimeOfDay(hour: int): (text: string)
    ensures text in TIME_OPTIONS
  {
    if 6 <= hour < 12 then MORNING
    else if 12 <= hour < 17 then AFTERNOON
    else if 17 <= hour < 21 then EVENING
    else NIGHT
  }

  /** `label.split(' ')[0].lower()`. */
  function ParseLabel(text: string): string {
    Lower(Split(text, ' ')[0])
  }

  /** The first piece of a split is the text up to the first separator. */
  lemma {:induction false} SplitHead(s: string)
    ensures Split(s, ' ')[0] == FirstToken(s)
  {
    if s != [] && s[0] != ' ' {
      SplitHead(s[1..]);
    }
  }

  /** The parsed label is the lower-cased text before the first space:
      it holds no space and has the label's opening word as its letters. */
  lemma ParseLabelSpec(text: string)
    ensures ParseLabel(text) == Lower(FirstToken(text))
    ensures ' ' !in ParseLabel(text)
    ensures |ParseLabel(text)| <= |text|
    ensures ParseLabel(text) == Lower(text[..|ParseLabel(text)|])
  {
    SplitHead(text);
    var t := FirstToken(text);
    forall i | 0 <= i < |t| ensures Lower(t)[i] != ' ' {
      assert t[i] != ' ';
    }
  }

  /** A word followed by a space is the first token. */
  lemma {:induction false} FirstWord(w: string, rest: string)
    requires ' ' !in w
    ensures FirstToken(w + " " + rest) == w
  {
    if w != [] {
      assert (w + " " + rest)[1..] == w[1..] + " " + rest;
      FirstWord(w[1..], rest);
    }
  }

  /** The key parsed from one option, given its first word and the rest. */
  lemma OptionKey(text: string, word: string, rest: string, key: string)
    requires text == word + " " + rest && ' ' !in word && Lower(word) == key
    ensures ParseLabel(text) == key
  {
    SplitHead(text);
    FirstWord(word, rest);
  }

  /** The time-of-day key the selector returns for the current hour:
      morning from 6 to 11, afternoon from 12 to 16, evening from 17 to 20,
      night otherwise. */
  lemma TimeOfDayKey(hour: int)
    ensures ParseLabel(DefaultTimeOfDay(hour)) ==
      if 6 <= hour < 12 then "morning"
      else if 12 <= hour < 17 then "afternoon"
      else if 17 <= hour < 21 then "evening"
      else "night"
  {
    if 6 <= hour < 12 {
      OptionKey(MORNING, "Morning", "\U{1F305}", "morning");
    } else if 12 <= hour < 17 {
      OptionKey(AFTERNOON, "Afternoon", "\U{2600}\U{FE0F}", "afternoon");
    } else if 17 <= hour < 21 {
      OptionKey(EVENING, "Evening", "\U{1F306}", "evening");
    } else {
      OptionKey(NIGHT, "Night", "\U{1F319}", "night");
    }
  }
}
