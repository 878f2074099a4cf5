/**
 * `Krang.Widget.time_chooser` and `Krang.Widget.update_time_chooser`: a
 * text input holding a time such as `10:30 PM`, and a pop-up clock of three
 * drop-downs (hour, minute, AM/PM) that is filled in by parsing the input
 * with `/^(\d+):(\d+)\s*(AM|PM)$/i` and written back as
 * `hour + ':' + minute + ' ' + ampm`.
 */
module TimeChooser {
  import opened Wrappers
  import opened JsText

  /** The values of the three drop-downs of the clock. */
  datatype Clock = Clock(hour: string, minute: string, ampm: string)

  function UpperAscii(c: char): char {
    if 'a' <= c <= 'z' then (c as int - 32) as char else c
  }

  /** `toUpperCase` on text made of ASCII letters. */
  function Upper(s: string): (r: string)
    ensures |r| == |s|
    ensures forall i :: 0 <= i < |s| ==> r[i] == UpperAscii(s[i])
  {
    if s == "" then "" else [UpperAscii(s[0])] + Upper(s[1..])
  }

  /** `(AM|PM)` under the `i` flag. */
  predicate IsMeridiem(a: string) {
    |a| == 2 && (UpperAscii(a[0]) == 'A' || UpperAscii(a[0]) == 'P') && UpperAscii(a[1]) == 'M'
  }

  predicate AllSpace(w: string) {
    forall i :: 0 <= i < |w| ==> IsSpace(w[i])
  }

  /** The pattern `^(\d+):(\d+)\s*(AM|PM)$` matches `s` with the groups
      `h`, `m` and `a`, and `w` for the white space. */
  predicate TimePattern(s: string, h: string, m: string, w: string, a: string) {
    s == h + ":" + m + w + a
    && |h| > 0 && AllDigits(h) && |m| > 0 && AllDigits(m)
    && AllSpace(w) && IsMeridiem(a)
  }

  lemma LeadingDigitsIsAllDigits(s: string)
    ensures AllDigits(LeadingDigits(s, 10))
  {
    var d := LeadingDigits(s, 10);
    forall i | 0 <= i < |d|
      ensures IsDigit(d[i])
    {
      assert DigitValue(d[i], 10) >= 0;
    }
  }

  lemma {:induction false} LeadingDigitsOfSplit(d: string, rest: string)
    requires AllDigits(d) && (rest == [] || !IsDigit(rest[0]))
    ensures LeadingDigits(d + rest, 10) == d
    decreases |d|
  {
    if |d| == 0 {
      assert d + rest == rest;
    } else {
      assert (d + rest)[1..] == d[1..] + rest;
      LeadingDigitsOfSplit(d[1..], rest);
    }
  }

  lemma {:induction false} TrimLeadingSpaceOfSplit(w: string, a: string)
    requires AllSpace(w) && (a == [] || !IsSpace(a[0]))
    ensures TrimLeadingSpace(w + a) == a
    decreases |w|
  {
    if |w| == 0 {
      assert w + a == a;
    } else {
      assert (w + a)[1..] == w[1..] + a;
      TrimLeadingSpaceOfSplit(w[1..], a);
    }
  }

  lemma UpperMeridiem(a: string)
    requires IsMeridiem(a)
    ensures Upper(a) == "AM" || Upper(a) == "PM"
  {
    assert Upper(a) == [UpperAscii(a[0]), UpperAscii(a[1])];
  }

  /** The part of the pattern after the colon: `(\d+)\s*(AM|PM)$`. */
  function ParseAfterColon(rest: string): (r: Option<(string, string)>)
    ensures r.Some? ==> |r.value.0| > 0 && AllDigits(r.value.0)
    ensures r.Some? ==> r.value.1 == "AM" || r.value.1 == "PM"
  {
    var m := LeadingDigits(rest, 10);
    var a := TrimLeadingSpace(rest[|m|..]);
    if m != "" && IsMeridiem(a) then
      LeadingDigitsIsAllDigits(rest);
      UpperMeridiem(a);
      Some((m, Upper(a)))
    else None
  }

  /** The match, if any, of the time pattern on the input's text. */
  function ParseTime(s: string): (r: Option<Clock>)
    ensures r.Some? ==> |r.value.hour| > 0 && AllDigits(r.value.hour)
    ensures r.Some? ==> |r.value.minute| > 0 && AllDigits(r.value.minute)
    ensures r.Some? ==> r.value.ampm == "AM" || r.value.ampm == "PM"
  {
    LeadingDigitsIsAllDigits(s);
    var h := LeadingDigits(s, 10);
    if h == "" || |h| == |s| || s[|h|] != ':' then None
    else
      var r := ParseAfterColon(s[|h| + 1..]);
      if r.None? then None else Some(Clock(h, r.value.0, r.value.1))
  }

  lemma ParseAfterColonComplete(m: string, w: string, a: string)
    requires |m| > 0 && AllDigits(m) && AllSpace(w) && IsMeridiem(a)
    ensures ParseAfterColon(m + w + a) == Some((m, Upper(a)))
  {
    var rest := m + w + a;
    assert rest == m + (w + a);
    assert !IsDigit(a[0]) && !IsSpace(a[0]);
    if |w| > 0 {
      assert (w + a)[0] == w[0];
    } else {
      assert w + a == a;
    }
    LeadingDigitsOfSplit(m, w + a);
    assert rest[|m|..] == w + a;
    TrimLeadingSpaceOfSplit(w, a);
  }

  /** Whatever the pattern matches, `ParseTime` returns its groups. */
  lemma ParseTimeComplete(s: string, h: string, m: string, w: string, a: string)
    requires TimePattern(s, h, m, w, a)
    ensures ParseTime(s) == Some(Clock(h, m, Upper(a)))
  {
    HourBeforeColon(s, h, m, w, a);
    ParseAfterColonComplete(m, w, a);
    ParseTimeAtColon(s, h);
  }

  /** The hour of a match is the leading digits, and a colon follows. */
  lemma HourBeforeColon(s: string, h: string, m: string, w: string, a: string)
    requires |h| > 0 && AllDigits(h) && s == h + ":" + m + w + a
    ensures LeadingDigits(s, 10) == h && |h| < |s| && s[|h|] == ':' && s[|h| + 1..] == m + w + a
  {
    var rest := m + w + a;
    Assoc(h, ":", rest);
    Assoc(h + ":" + m, w, a);
    Assoc(h + ":", m, w + a);
    Assoc(m, w, a);
    SliceAtSeam(h + ":", rest);
    LeadingDigitsOfSplit(h, ":" + rest);
  }

  /** `ParseTime` where the leading digits are followed by a colon: what
      `ParseAfterColon` makes of the rest, with the digits as the hour. */
  lemma ParseTimeAtColon(s: string, h: string)
    requires |h| > 0 && LeadingDigits(s, 10) == h && |h| < |s| && s[|h|] == ':'
    ensures ParseAfterColon(s[|h| + 1..]).None? ==> ParseTime(s) == None
    ensures ParseAfterColon(s[|h| + 1..]).Some? ==>
      ParseTime(s) == Some(Clock(h, ParseAfterColon(s[|h| + 1..]).value.0, ParseAfterColon(s[|h| + 1..]).value.1))
  {
  }

  /** What `ParseAfterColon` found, when it found something. */
  lemma ParseAfterColonFound(rest: string, m: string, a: string)
    requires ParseAfterColon(rest).Some?
    requires m == LeadingDigits(rest, 10) && a == TrimLeadingSpace(rest[|m|..])
    ensures m != "" && IsMeridiem(a) && ParseAfterColon(rest) == Some((m, Upper(a)))
  {
  }

  /** Any text splits into its leading digits, the white space after
      them, and the remainder. */
  lemma SplitDigitsSpace(rest: string, m: string, tail: string, a: string)
    requires m == LeadingDigits(rest, 10) && tail == rest[|m|..] && a == TrimLeadingSpace(tail)
    ensures rest == m + tail[..|tail| - |a|] + a && AllDigits(m) && AllSpace(tail[..|tail| - |a|])
  {
    var w := tail[..|tail| - |a|];
    LeadingDigitsIsAllDigits(rest);
    TrimmedPrefixIsSpace(tail);
    SplitAt(tail, |tail| - |a|);
    SplitAt(rest, |m|);
    Assoc(m, w, a);
  }

  /** The text after the colon that `ParseAfterColon` accepts is digits,
      white space and a meridiem. */
  lemma ParseAfterColonSound(rest: string)
    requires ParseAfterColon(rest).Some?
    ensures exists m, w, a ::
      rest == m + w + a && |m| > 0 && AllDigits(m) && AllSpace(w) && IsMeridiem(a)
      && ParseAfterColon(rest) == Some((m, Upper(a)))
  {
    var m := LeadingDigits(rest, 10);
    var tail := rest[|m|..];
    var a := TrimLeadingSpace(tail);
    ParseAfterColonFound(rest, m, a);
    SplitDigitsSpace(rest, m, tail, a);
    var w := tail[..|tail| - |a|];
    assert rest == m + w + a && |m| > 0 && AllDigits(m) && AllSpace(w) && IsMeridiem(a)
      && ParseAfterColon(rest) == Some((m, Upper(a)));
  }

  lemma SplitAtColon(s: string, h: string)
    requires |h| < |s| && s[..|h|] == h && s[|h|] == ':'
    ensures s == h + ":" + s[|h| + 1..]
  {
    assert s == s[..|h|] + s[|h|..];
    assert s[|h|..] == [':'] + s[|h| + 1..];
  }

  /** What `ParseTime` found, when it found something: the hour's digits,
      a colon, and what `ParseAfterColon` accepted. */
  lemma ParseTimeFound(s: string, h: string)
    requires ParseTime(s).Some? && h == LeadingDigits(s, 10)
    ensures 0 < |h| < |s| && s[|h|] == ':' && AllDigits(h) && ParseAfterColon(s[|h| + 1..]).Some?
    ensures ParseTime(s) == Some(Clock(h, ParseAfterColon(s[|h| + 1..]).value.0, ParseAfterColon(s[|h| + 1..]).value.1))
  {
    LeadingDigitsIsAllDigits(s);
    ParseTimeNeedsColon(s);
    ParseTimeAtColon(s, h);
  }

  /** Without digits followed by a colon, `ParseTime` finds nothing. */
  lemma ParseTimeNeedsColon(s: string)
    ensures var h := LeadingDigits(s, 10);
      h == "" || |h| == |s| || s[|h|] != ':' ==> ParseTime(s) == None
  {
  }

  /** Whatever `ParseTime` returns comes from a match of the pattern. */
  lemma ParseTimeSound(s: string)
    requires ParseTime(s).Some?
    ensures exists h, m, w, a :: TimePattern(s, h, m, w, a) && ParseTime(s) == Some(Clock(h, m, Upper(a)))
  {
    var h := LeadingDigits(s, 10);
    var rest := s[|h| + 1..];
    ParseTimeFound(s, h);
    SplitAtColon(s, h);
    ParseAfterColonSound(rest);
    var m, w, a :| rest == m + w + a && |m| > 0 && AllDigits(m) && AllSpace(w) && IsMeridiem(a)
      && ParseAfterColon(rest) == Some((m, Upper(a)));
    JoinGroups(s, h, m, w, a);
    assert TimePattern(s, h, m, w, a);
  }

  lemma JoinGroups(s: string, h: string, m: string, w: string, a: string)
    requires s == h + ":" + (m + w + a)
    ensures s == h + ":" + m + w + a
  {
  }

  /** What `TrimLeadingSpace` removes is white space. */
  lemma {:induction false} TrimmedPrefixIsSpace(t: string)
    ensures AllSpace(t[..|t| - |TrimLeadingSpace(t)|])
    decreases |t|
  {
    if |t| > 0 && IsSpace(t[0]) {
      TrimmedPrefixIsSpace(t[1..]);
      var r := TrimLeadingSpace(t);
      assert t[..|t| - |r|] == [t[0]] + t[1..][..|t[1..]| - |r|];
    }
  }

  /** `update_time_chooser`: the text written back to the input, provided
      all three drop-downs have a non-empty value. */
  function FormatTime(c: Clock): (r: Option<string>)
    ensures r.Some? <==> c.hour != "" && c.minute != "" && c.ampm != ""
    ensures r.Some? ==> |r.value| == |c.hour| + |c.minute| + |c.ampm| + 2
  {
    if c.hour != "" && c.minute != "" && c.ampm != "" then
      Some(c.hour + ":" + c.minute + " " + c.ampm)
    else None
  }

  /** Drop-down values that `FormatTime` writes can be read back by the
      parser: format then parse gives the same clock. */
  lemma FormatThenParse(c: Clock)
    requires |c.hour| > 0 && AllDigits(c.hour) && |c.minute| > 0 && AllDigits(c.minute)
    requires c.ampm == "AM" || c.ampm == "PM"
    ensures FormatTime(c).Some? && ParseTime(FormatTime(c).value) == Some(c)
  {
    var s := FormatTime(c).value;
    assert IsSpace(' ');
    assert AllSpace(" ");
    assert Upper(c.ampm) == c.ampm;
    assert TimePattern(s, c.hour, c.minute, " ", c.ampm);
    ParseTimeComplete(s, c.hour, c.minute, " ", c.ampm);
  }

  /** Parsing, formatting and parsing again gives the first parse: the
      written text is the canonical spelling of the time read. */
  lemma ParseFormatParse(s: string)
    requires ParseTime(s).Some?
    ensures FormatTime(ParseTime(s).value).Some?
    ensures ParseTime(FormatTime(ParseTime(s).value).value) == ParseTime(s)
  {
    FormatThenParse(ParseTime(s).value);
  }

  /** The option values of the three drop-downs, which the page's HTML
      supplies. */
  datatype Options = Options(hours: set<string>, minutes: set<string>, meridiems: set<string>)

  /** Setting a drop-down's `value`: a value without a matching option
      leaves nothing selected, and the drop-down then reads as empty. */
  function Select(options: set<string>, v: string): string {
    if v in options then v else ""
  }

  /** The three drop-downs after `hour.value`, `minute.value` and
      `ampm.value` are assigned the groups of `c`. */
  function Assign(o: Options, c: Clock): Clock {
    Clock(Select(o.hours, c.hour), Select(o.minutes, c.minute), Select(o.meridiems, c.ampm))
  }

  /** The drop-downs after the trigger has loaded `input` into them: the
      groups of a match, or the old values when the input does not match. */
  function Load(o: Options, input: string, clock: Clock): Clock {
    if ParseTime(input).Some? then Assign(o, ParseTime(input).value) else clock
  }

  lemma LoadOf(o: Options, input: string, clock: Clock, matches: Option<Clock>)
    requires matches == ParseTime(input)
    ensures matches.Some? ==> Load(o, input, clock) == Assign(o, matches.value)
    ensures matches.None? ==> Load(o, input, clock) == clock
  {
  }

  /** A value the drop-downs can hold: one of their options, or empty. */
  predicate Selectable(o: Options, c: Clock) {
    (c.hour == "" || c.hour in o.hours) && (c.minute == "" || c.minute in o.minutes)
    && (c.ampm == "" || c.ampm in o.meridiems)
  }

  /** Assigning the drop-downs always leaves a selectable value, and it
      leaves the value as it is exactly when that value is selectable. */
  lemma AssignSelectable(o: Options, c: Clock)
    ensures Selectable(o, Assign(o, c))
    ensures Assign(o, c) == c <==> Selectable(o, c)
  {
  }

  /** Loading an input keeps the drop-downs selectable. */
  lemma LoadSelectable(o: Options, input: string, clock: Clock)
    requires Selectable(o, clock)
    ensures Selectable(o, Load(o, input, clock))
  {
    if ParseTime(input).Some? {
      AssignSelectable(o, ParseTime(input).value);
    }
  }

  /** Loading a parsed input into the drop-downs and writing them back:
      the text is written back iff all three groups are options, and what
      is written then parses to what was read. A group without an option,
      such as an hour `09` among options `1` to `12`, empties its
      drop-down, and `update_time_chooser` then leaves the input alone. */
  lemma LoadThenUpdate(o: Options, s: string)
    requires ParseTime(s).Some?
    ensures var c := ParseTime(s).value;
      FormatTime(Assign(o, c)).Some? <==> c.hour in o.hours && c.minute in o.minutes && c.ampm in o.meridiems
    ensures var c := ParseTime(s).value;
      FormatTime(Assign(o, c)).Some? ==> ParseTime(FormatTime(Assign(o, c)).value) == ParseTime(s)
  {
    var c := ParseTime(s).value;
    if c.hour in o.hours && c.minute in o.minutes && c.ampm in o.meridiems {
      assert Assign(o, c) == c;
      ParseFormatParse(s);
    }
  }

  /** The input and the clock of one time chooser on the page. */
  class Chooser {
    const options: Options
    var input: string
    var clock: Clock
    var clockVisible: bool
    /** Whether the three drop-downs are enabled. */
    var selectsEnabled: bool

    /** The drop-downs are enabled while the clock is shown. A clock closed
        by a click elsewhere leaves them enabled, so the converse does not
        hold. */
    predicate Valid()
      reads this
    {
      clockVisible ==> selectsEnabled
    }

    constructor(options: Options, input: string, clock: Clock)
      ensures Valid() && !clockVisible
      ensures this.options == options && this.input == input && this.clock == clock
    {
      this.options := options;
      this.input := input;
      this.clock := clock;
      clockVisible := false;
      selectsEnabled := false;
    }

    /** A click on the clock's trigger: hides a visible clock; otherwise
        loads the input into the drop-downs when it parses and shows the
        clock. The input's text is never changed (an empty input is set to
        the empty string). */
    method ClickTrigger()
      modifies this
      ensures Valid() && clockVisible == !old(clockVisible) && input == old(input)
      ensures selectsEnabled == clockVisible
      ensures old(clockVisible) ==> clock == old(clock)
      ensures !old(clockVisible) ==> clock == Load(options, old(input), old(clock))
    {
      if clockVisible {
        clockVisible := false;
        selectsEnabled := false;
      } else {
        selectsEnabled := true;
        Fill();
        clockVisible := true;
      }
    }

    /** The drop-downs are assigned the groups of the input when the input
        parses; an empty input is set to the empty string. */
    method Fill()
      modifies this
      ensures clock == Load(options, old(input), old(clock))
      ensures input == old(input) && clockVisible == old(clockVisible) && selectsEnabled == old(selectsEnabled)
    {
      var matches := ParseTime(input);
      LoadOf(options, input, clock, matches);
      if matches.Some? {
        clock := Assign(options, matches.value);
      } else if input == "" {
        input := "";
      }
    }

    /** A mouse-down on the document: a visible clock is hidden unless the
        click is on the clock, its drop-downs or its trigger; unlike the
        trigger, this leaves the drop-downs enabled. */
    method ClickElsewhere(onClock: bool)
      modifies this
      ensures old(Valid()) ==> Valid()
      ensures input == old(input) && clock == old(clock) && selectsEnabled == old(selectsEnabled)
      ensures clockVisible == (old(clockVisible) && onClock)
    {
      if clockVisible && !onClock {
        clockVisible := false;
      }
    }

    /** A change of any drop-down: `update_time_chooser`. */
    method UpdateInput()
      modifies this
      ensures clock == old(clock) && clockVisible == old(clockVisible)
      ensures selectsEnabled == old(selectsEnabled)
      ensures input == (if FormatTime(clock).Some? then FormatTime(clock).value else old(input))
    {
      var text := FormatTime(clock);
      if text.Some? {
        input := text.value;
      }
    }
  }
}
