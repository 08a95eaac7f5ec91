/**
 * SubRip cues as `generateSubtitleEntry` writes them: a one-based cue number, a
 * `HH:MM:SS,mmm --> HH:MM:SS,mmm` timing line and the scene text. Times are whole
 * milliseconds; the source's seconds are the same values divided by 1000.
 */
module SubtitleCues {
  import opened Wrappers
  import opened JsText

  // Times are written as literals: an hour is 3600000 ms, a minute 60000 ms, and times
  // below 100 hours (360000000 ms) print their hours in two digits.

  /** The four fields `formatTime` prints. */
  datatype Clock = Clock(hours: nat, minutes: nat, seconds: nat, millis: nat)

  predicate ValidClock(c: Clock) {
    c.minutes < 60 && c.seconds < 60 && c.millis < 1000
  }

  function ClockValue(c: Clock): nat {
    c.hours * 3600000 + c.minutes * 60000 + c.seconds * 1000 + c.millis
  }

  /**
   * The fields of `formatTime(t / 1000)`: whole hours, the minutes of the remaining hour,
   * the seconds of the remaining minute and the milliseconds of the remaining second.
   */
  function ClockOf(t: nat): (c: Clock)
    ensures ValidClock(c)
    ensures ClockValue(c) == t
    ensures t < 360000000 ==> c.hours < 100
  {
    var c := Clock(t / 3600000, (t % 3600000) / 60000, (t % 60000) / 1000, t % 1000);
    ClockArith(t);
    c
  }

  lemma ClockArith(t: nat)
    ensures (t % 3600000) / 60000 < 60
    ensures (t % 60000) / 1000 < 60
    ensures t % 3600000 == ((t % 3600000) / 60000) * 60000 + t % 60000
    ensures t % 60000 == ((t % 60000) / 1000) * 1000 + t % 1000
  {
    var h := t / 3600000;
    var r := t % 3600000;
    var m := r / 60000;
    assert t == h * 3600000 + r;
    assert r == m * 60000 + r % 60000;
    assert t == (h * 60 + m) * 60000 + r % 60000;
    ModUnique(t, 60000, h * 60 + m, r % 60000);
    var u := t % 60000;
    assert u == (u / 1000) * 1000 + u % 1000;
    assert t == ((h * 60 + m) * 60 + u / 1000) * 1000 + u % 1000;
    ModUnique(t, 1000, (h * 60 + m) * 60 + u / 1000, u % 1000);
  }

  lemma ModUnique(t: nat, d: nat, q: nat, r: nat)
    requires d > 0 && r < d && t == q * d + r
    ensures t % d == r && t / d == q
  {
    var q' := t / d;
    var r' := t % d;
    if q' < q {
      MulGap(q', q, d);
    } else if q < q' {
      MulGap(q, q', d);
    }
  }

  /** Multiples of `d` at different factors are at least `d` apart. */
  lemma MulGap(a: nat, b: nat, d: nat)
    requires a < b
    ensures a * d + d <= b * d
  {
    MulAtLeast(b - a, d);
    assert (b - a) * d == b * d - a * d;
  }

  lemma MulAtLeast(k: nat, d: nat)
    requires k >= 1
    ensures k * d >= d
  {
  }

  /** A clock's fields are recovered from the time they denote. */
  lemma ClockOfValue(c: Clock)
    requires ValidClock(c)
    ensures ClockOf(ClockValue(c)) == c
  {
    var t := ClockValue(c);
    var u := c.seconds * 1000 + c.millis;
    var v := c.minutes * 60000 + u;
    assert u < 60000 && v < 3600000;
    ModUnique(t, 3600000, c.hours, v);
    ModUnique(v, 60000, c.minutes, u);
    ModUnique(t, 60000, c.hours * 60 + c.minutes, u);
    ModUnique(u, 1000, c.seconds, c.millis);
    ModUnique(t, 1000, (c.hours * 60 + c.minutes) * 60 + c.seconds, c.millis);
  }

  /** `String(n).padStart(width, '0')`. */
  function Pad(n: nat, width: nat): string {
    PadZeros(NatToString(n), width)
  }

  function ClockText(c: Clock): string {
    Pad(c.hours, 2) + ":" + Pad(c.minutes, 2) + ":" + Pad(c.seconds, 2) + "," + Pad(c.millis, 3)
  }

  /** `formatTime(t / 1000)` for a time of `t` milliseconds. */
  function FormatTime(t: nat): string {
    ClockText(ClockOf(t))
  }

  /** Reads a twelve-character `HH:MM:SS,mmm` stamp back into milliseconds. */
  function ParseTime(s: string): Option<nat> {
    if |s| == 12 && s[2] == ':' && s[5] == ':' && s[8] == ','
      && AllDigits(s[..2]) && AllDigits(s[3..5]) && AllDigits(s[6..8]) && AllDigits(s[9..])
      && ParseDigits(s[3..5]) < 60 && ParseDigits(s[6..8]) < 60
    then Some(ClockValue(Clock(ParseDigits(s[..2]), ParseDigits(s[3..5]), ParseDigits(s[6..8]), ParseDigits(s[9..]))))
    else None
  }

  /** The text of a clock, cut at its separators. */
  lemma ClockTextFields(c: Clock, s: string, h: string, m: string, sec: string, ms: string)
    requires h == Pad(c.hours, 2) && m == Pad(c.minutes, 2) && sec == Pad(c.seconds, 2) && ms == Pad(c.millis, 3)
    requires |h| == 2 && |m| == 2 && |sec| == 2 && |ms| == 3
    requires s == ClockText(c)
    ensures |s| == 12 && s[2] == ':' && s[5] == ':' && s[8] == ','
    ensures s[..2] == h && s[3..5] == m && s[6..8] == sec && s[9..] == ms
  {
    assert s == h + ":" + m + ":" + sec + "," + ms;
  }

  /** A padded field of width `w` for a value below `10^w`: `w` digits reading as the value. */
  lemma PadField(n: nat, w: nat)
    requires w >= 1 && n < Pow10(w)
    ensures |Pad(n, w)| == w && AllDigits(Pad(n, w)) && ParseDigits(Pad(n, w)) == n
  {
    PadZerosRoundTrip(n, w);
  }

  /** Below 100 hours, `formatTime` prints twelve characters that read back as the time. */
  lemma FormatTimeRoundTrip(t: nat)
    requires t < 360000000
    ensures |FormatTime(t)| == 12
    ensures ParseTime(FormatTime(t)) == Some(t)
  {
    var c := ClockOf(t);
    assert Pow10(2) == 100 && Pow10(3) == 1000 by {
      assert Pow10(1) == 10;
    }
    PadField(c.hours, 2);
    PadField(c.minutes, 2);
    PadField(c.seconds, 2);
    PadField(c.millis, 3);
    ClockTextFields(c, FormatTime(t), Pad(c.hours, 2), Pad(c.minutes, 2), Pad(c.seconds, 2), Pad(c.millis, 3));
  }

  /** Every stamp `ParseTime` accepts is exactly what `formatTime` prints for its value. */
  lemma ParseTimeRoundTrip(s: string)
    requires ParseTime(s).Some?
    ensures FormatTime(ParseTime(s).value) == s
  {
    var c := Clock(ParseDigits(s[..2]), ParseDigits(s[3..5]), ParseDigits(s[6..8]), ParseDigits(s[9..]));
    ParseDigitsBound(s[9..]);
    assert Pow10(3) == 1000 by {
      assert Pow10(1) == 10 && Pow10(2) == 100;
    }
    ClockOfValue(c);
    PadParse(s[..2]);
    PadParse(s[3..5]);
    PadParse(s[6..8]);
    PadParse(s[9..]);
    SliceJoin12(s);
  }

  lemma SliceJoin12(s: string)
    requires |s| == 12 && s[2] == ':' && s[5] == ':' && s[8] == ','
    ensures s == s[..2] + ":" + s[3..5] + ":" + s[6..8] + "," + s[9..]
  {
  }

  // ---------------------------------------------------------------------------
  // Cues

  /** The lines of `ls`, each followed by `\n`. */
  function Lines(ls: seq<string>): string {
    if ls == [] then [] else ls[0] + "\n" + Lines(ls[1..])
  }

  /** `generateSubtitleEntry(text, index, start, duration)`, times in milliseconds. */
  function Cue(text: string, index: nat, start: nat, duration: nat): string {
    Lines([NatToString(index + 1), TimingLine(start, start + duration), text])
  }

  function TimingLine(start: nat, end: nat): string {
    FormatTime(start) + " --> " + FormatTime(end)
  }

  /** What a cue carries: its zero-based scene index, its two times and its text. */
  datatype CueFields = CueFields(index: nat, start: nat, end: nat, text: string)

  /** Reads a `START --> END` line of two twelve-character stamps. */
  function ParseTiming(l: string): Option<(nat, nat)> {
    if |l| == 29 && l[12..17] == " --> " && ParseTime(l[..12]).Some? && ParseTime(l[17..]).Some?
    then Some((ParseTime(l[..12]).value, ParseTime(l[17..]).value))
    else None
  }

  /** Reads one cue: a positive number, a timing line and one line of text, each ended by `\n`. */
  function ParseCue(s: string): Option<CueFields> {
    var lines := SplitOn(s, '\n');
    if |lines| == 4 && lines[3] == [] && AllDigits(lines[0]) && ParseDigits(lines[0]) >= 1
      && ParseTiming(lines[1]).Some?
    then Some(CueFields(ParseDigits(lines[0]) - 1, ParseTiming(lines[1]).value.0,
                        ParseTiming(lines[1]).value.1, lines[2]))
    else None
  }

  /** The timing line of times below 100 hours reads back as its two times. */
  lemma TimingLineRoundTrip(start: nat, end: nat)
    requires start < 360000000 && end < 360000000
    ensures ParseTiming(TimingLine(start, end)) == Some((start, end))
    ensures '\n' !in TimingLine(start, end)
  {
    FormatTimeRoundTrip(start);
    FormatTimeRoundTrip(end);
    var a := FormatTime(start);
    var b := FormatTime(end);
    var l := TimingLine(start, end);
    assert l == a + " --> " + b;
    assert l[..12] == a && l[17..] == b;
    assert l[12..17] == " --> ";
    NoNewlineInStamp(a);
    NoNewlineInStamp(b);
  }

  lemma NoNewlineInStamp(s: string)
    requires ParseTime(s).Some?
    ensures '\n' !in s
  {
    assert s == s[..2] + ":" + s[3..5] + ":" + s[6..8] + "," + s[9..];
  }

  lemma NoNewlineInNumber(n: nat)
    ensures '\n' !in NatToString(n)
  {
  }

  /** Splitting lines free of `\n` at `\n` gives them back, then the empty rest. */
  lemma {:induction false} SplitLines(ls: seq<string>)
    requires forall k :: 0 <= k < |ls| ==> '\n' !in ls[k]
    ensures SplitOn(Lines(ls), '\n') == ls + [[]]
  {
    if ls != [] {
      SplitLines(ls[1..]);
      SplitOnCons(ls[0], '\n', Lines(ls[1..]));
      assert ls == [ls[0]] + ls[1..];
    }
  }

  /**
   * A cue for a one-line text ending before 100 hours reads back as its index, its start,
   * its end `start + duration` and its text.
   */
  lemma CueRoundTrip(text: string, index: nat, start: nat, duration: nat)
    requires '\n' !in text && start + duration < 360000000
    ensures ParseCue(Cue(text, index, start, duration)) == Some(CueFields(index, start, start + duration, text))
  {
    TimingLineRoundTrip(start, start + duration);
    CueOfTiming(text, index, TimingLine(start, start + duration), start, start + duration);
  }

  /** A cue built around any timing line that reads as `(a, b)`. */
  lemma CueOfTiming(text: string, index: nat, l: string, a: nat, b: nat)
    requires '\n' !in text && '\n' !in l && ParseTiming(l) == Some((a, b))
    ensures ParseCue(Lines([NatToString(index + 1), l, text])) == Some(CueFields(index, a, b, text))
  {
    NoNewlineInNumber(index + 1);
    ParseNatToString(index + 1);
    ParseCueOfParts(Lines([NatToString(index + 1), l, text]), NatToString(index + 1), l, text);
  }

  /** `ParseCue` on three lines whose fields are already known. */
  lemma ParseCueOfParts(s: string, n: string, l: string, text: string)
    requires s == Lines([n, l, text])
    requires '\n' !in n && '\n' !in l && '\n' !in text
    requires AllDigits(n) && ParseDigits(n) >= 1 && ParseTiming(l).Some?
    ensures ParseCue(s) == Some(CueFields(ParseDigits(n) - 1, ParseTiming(l).value.0, ParseTiming(l).value.1, text))
  {
    ThreeLines(n, l, text);
    ParseCueOfLines(s, n, l, text);
  }

  lemma ThreeLines(n: string, l: string, text: string)
    requires '\n' !in n && '\n' !in l && '\n' !in text
    ensures SplitOn(Lines([n, l, text]), '\n') == [n, l, text, []]
  {
    var ls := [n, l, text];
    assert forall k :: 0 <= k < |ls| ==> '\n' !in ls[k];
    SplitLines(ls);
    assert ls + [[]] == [n, l, text, []];
  }

  lemma ParseCueOfLines(s: string, n: string, l: string, text: string)
    requires SplitOn(s, '\n') == [n, l, text, []]
    requires AllDigits(n) && ParseDigits(n) >= 1 && ParseTiming(l).Some?
    ensures ParseCue(s) == Some(CueFields(ParseDigits(n) - 1, ParseTiming(l).value.0, ParseTiming(l).value.1, text))
  {
  }
}
