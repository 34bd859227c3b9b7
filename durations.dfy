/** Formatting a duration in seconds as days, hours, minutes and seconds, in the
    shape `"2d 03h 04m 05s"`, together with the reading that recovers the whole
    number of seconds from such a text. */
module Durations {
  import opened RealMath
  import opened Options

  /** A Python float as `format_seconds` distinguishes it. */
  datatype PyFloat = Number(value: real) | PosInf | NegInf | NaN

  /** The text shown for an infinite or undefined duration, "∞". */
  const Infinity: string := "\U{221E}"

  /** The whole seconds `int(seconds)` of a finite or negatively infinite
      input, negative values counting as zero. */
  function WholeSeconds(seconds: PyFloat): (n: nat)
    requires !seconds.PosInf? && !seconds.NaN?
    ensures seconds.Number? && 0.0 <= seconds.value ==> n as real <= seconds.value < n as real + 1.0
    ensures seconds.NegInf? || (seconds.Number? && seconds.value < 1.0) ==> n == 0
  {
    if seconds.NegInf? || seconds.value < 0.0 then 0 else Trunc(seconds.value)
  }

  /** A whole number of seconds split into days, hours, minutes and seconds. */
  datatype Clock = Clock(days: nat, hours: nat, minutes: nat, seconds: nat)

  /** The three `divmod` steps: by 60, by 60 and by 24. */
  function Split(total: nat): (c: Clock)
    ensures c.days * 86400 + c.hours * 3600 + c.minutes * 60 + c.seconds == total
    ensures c.hours < 24 && c.minutes < 60 && c.seconds < 60
  {
    var minutes, sec := total / 60, total % 60;
    var hours, minutes' := minutes / 60, minutes % 60;
    var days, hours' := hours / 24, hours % 24;
    Clock(days, hours', minutes', sec)
  }

  /** The character of a decimal digit. */
  function DigitChar(d: nat): (c: char)
    requires d < 10
    ensures '0' <= c <= '9'
  {
    (48 + d) as char
  }

  /** `str(n)`: decimal digits without leading zeros. */
  function Decimal(n: nat): (s: string)
    ensures 0 < |s|
    ensures forall i :: 0 <= i < |s| ==> '0' <= s[i] <= '9'
  {
    if n < 10 then [DigitChar(n)] else Decimal(n / 10) + [DigitChar(n % 10)]
  }

  /** `f"{n:02d}"` for `n < 100`: exactly two digits. */
  function Pad2(n: nat): (s: string)
    requires n < 100
    ensures |s| == 2 && '0' <= s[0] <= '9' && '0' <= s[1] <= '9'
  {
    [DigitChar(n / 10), DigitChar(n % 10)]
  }

  /** The parts `format_seconds` appends, in order: the days when there are
      any, the hours when there are days or hours, then minutes and seconds. */
  function Parts(c: Clock): (ps: seq<string>)
    requires c.hours < 24 && c.minutes < 60 && c.seconds < 60
    ensures |ps| == 2 + (if c.days != 0 then 1 else 0) + (if c.days != 0 || c.hours != 0 then 1 else 0)
    ensures c.days != 0 ==> ps[0] == Decimal(c.days) + "d"
    ensures c.days != 0 || c.hours != 0 ==> ps[|ps| - 3] == Pad2(c.hours) + "h"
    ensures ps[|ps| - 2] == Pad2(c.minutes) + "m" && ps[|ps| - 1] == Pad2(c.seconds) + "s"
  {
    (if c.days != 0 then [Decimal(c.days) + "d"] else [])
    + (if c.days != 0 || c.hours != 0 then [Pad2(c.hours) + "h"] else [])
    + [Pad2(c.minutes) + "m", Pad2(c.seconds) + "s"]
  }

  /** `" ".join(parts)`. */
  function Join(ps: seq<string>): string
  {
    if |ps| == 0 then ""
    else if |ps| == 1 then ps[0]
    else ps[0] + " " + Join(ps[1..])
  }

  /** Format a duration: "∞" for infinity or NaN; otherwise the non-negative
      whole seconds split into parts joined by single spaces. The text reads
      back as the same whole number of seconds. */
  method FormatSeconds(seconds: PyFloat) returns (s: string)
    ensures seconds.PosInf? || seconds.NaN? ==> s == Infinity
    ensures !seconds.PosInf? && !seconds.NaN? ==>
      && Words(s) == Parts(Split(WholeSeconds(seconds)))
      && Duration(s) == Some(WholeSeconds(seconds))
  {
    if seconds.PosInf? || seconds.NaN? {
      return Infinity;
    }
    var value := if seconds.NegInf? || seconds.value < 0.0 then 0.0 else seconds.value;
    var total := Trunc(value);
    var minutes, sec := total / 60, total % 60;
    var hours;
    hours, minutes := minutes / 60, minutes % 60;
    var days;
    days, hours := hours / 24, hours % 24;
    var parts: seq<string> := [];
    if days != 0 {
      parts := parts + [Decimal(days) + "d"];
    }
    if days != 0 || hours != 0 {
      parts := parts + [Pad2(hours) + "h"];
    }
    parts := parts + [Pad2(minutes) + "m"];
    parts := parts + [Pad2(sec) + "s"];
    assert parts == Parts(Split(WholeSeconds(seconds)));
    s := Join(parts);
    FormatReadsBack(WholeSeconds(seconds));
  }

  /** A negative duration formats as zero minutes and zero seconds. */
  lemma NegativeIsZero(seconds: PyFloat)
    requires seconds.NegInf? || (seconds.Number? && seconds.value < 0.0)
    ensures Join(Parts(Split(WholeSeconds(seconds)))) == "00m 00s"
  {
    assert Split(0) == Clock(0, 0, 0, 0);
    assert Pad2(0) == "00";
  }

  // Reading a formatted duration back.

  /** The index of the first space in `s`. */
  function FirstSpace(s: string): (i: nat)
    requires ' ' in s
    ensures i < |s| && s[i] == ' ' && ' ' !in s[..i]
  {
    if s[0] == ' ' then 0 else 1 + FirstSpace(s[1..])
  }

  /** `s.split(" ")`: the pieces between single spaces. */
  function Words(s: string): (ws: seq<string>)
    ensures 0 < |ws|
    decreases |s|
  {
    if ' ' in s then
      var i := FirstSpace(s);
      [s[..i]] + Words(s[i + 1..])
    else [s]
  }

  /** The value of a decimal digit character. */
  function DigitValue(c: char): Option<nat>
  {
    if '0' <= c <= '9' then Some(c as nat - 48) else None
  }

  /** The number a string of decimal digits denotes; absent when a character
      is not a digit. */
  function ParseNat(s: string): Option<nat>
  {
    if |s| == 0 then Some(0)
    else
      match (ParseNat(s[..|s| - 1]), DigitValue(s[|s| - 1]))
      case (Some(p), Some(d)) => Some(p * 10 + d)
      case _ => None
  }

  /** The seconds one unit letter stands for. */
  function UnitSeconds(c: char): Option<nat>
  {
    match c
    case 'd' => Some(86400)
    case 'h' => Some(3600)
    case 'm' => Some(60)
    case 's' => Some(1)
    case _ => None
  }

  /** The seconds a word such as `"03h"` stands for. */
  function WordSeconds(w: string): Option<nat>
  {
    if |w| < 2 then None
    else
      match (ParseNat(w[..|w| - 1]), UnitSeconds(w[|w| - 1]))
      case (Some(n), Some(u)) => Some(n * u)
      case _ => None
  }

  /** The total seconds of a list of words. */
  function SumWords(ws: seq<string>): Option<nat>
  {
    if |ws| == 0 then Some(0)
    else
      match (WordSeconds(ws[0]), SumWords(ws[1..]))
      case (Some(a), Some(b)) => Some(a + b)
      case _ => None
  }

  /** The total seconds a formatted duration denotes. */
  function Duration(s: string): Option<nat>
  {
    SumWords(Words(s))
  }

  /** Decimal digits read back as the number they were made from. */
  lemma {:induction false} DecimalReadsBack(n: nat)
    ensures ParseNat(Decimal(n)) == Some(n)
  {
    if n < 10 {
      assert Decimal(n)[..0] == [];
    } else {
      DecimalReadsBack(n / 10);
      var s := Decimal(n);
      assert s[..|s| - 1] == Decimal(n / 10);
    }
  }

  /** Two padded digits read back as the number they were made from. */
  lemma Pad2ReadsBack(n: nat)
    requires n < 100
    ensures ParseNat(Pad2(n)) == Some(n)
  {
    var s := Pad2(n);
    var high := s[..|s| - 1];
    assert high == [DigitChar(n / 10)];
    assert high[..0] == [];
    assert DigitValue(high[0]) == Some(n / 10);
    assert ParseNat(high) == Some(n / 10);
    assert DigitValue(s[1]) == Some(n % 10);
    assert ParseNat(s) == Some(n / 10 * 10 + n % 10);
  }

  /** A number followed by its unit letter is worth number × unit. */
  lemma WordReadsBack(digits: string, n: nat, unit: char)
    requires 1 <= |digits| && ParseNat(digits) == Some(n) && UnitSeconds(unit).Some?
    ensures WordSeconds(digits + [unit]) == Some(n * UnitSeconds(unit).value)
  {
    assert (digits + [unit])[..|digits|] == digits;
  }

  /** Words without spaces, joined by single spaces, split back into
      themselves. */
  lemma {:induction false} WordsOfJoin(ps: seq<string>)
    requires 0 < |ps|
    requires forall i :: 0 <= i < |ps| ==> ' ' !in ps[i]
    ensures Words(Join(ps)) == ps
  {
    if |ps| > 1 {
      assert ' ' !in ps[0];
      WordsOfJoin(ps[1..]);
      WordsSplit(ps[0], Join(ps[1..]));
      assert Join(ps) == ps[0] + " " + Join(ps[1..]);
      assert [ps[0]] + ps[1..] == ps;
    }
  }

  /** Splitting at a space preceded by a word without spaces gives that
      word first. */
  lemma WordsSplit(w: string, rest: string)
    requires ' ' !in w
    ensures Words(w + " " + rest) == [w] + Words(rest)
  {
    var s := w + " " + rest;
    assert s[|w|] == ' ';
    var i := FirstSpace(s);
    assert s[..|w|] == w;
    assert s[..i] == w;
    assert s[i + 1..] == rest;
  }

  /** Two padded digits followed by a unit letter are worth number × unit. */
  lemma PaddedWordReadsBack(n: nat, unit: char)
    requires n < 100 && UnitSeconds(unit).Some?
    ensures WordSeconds(Pad2(n) + [unit]) == Some(n * UnitSeconds(unit).value)
  {
    Pad2ReadsBack(n);
    WordReadsBack(Pad2(n), n, unit);
  }

  /** Prepending a word adds its seconds to the total. */
  lemma SumCons(w: string, ws: seq<string>, x: nat, y: nat)
    requires WordSeconds(w) == Some(x) && SumWords(ws) == Some(y)
    ensures SumWords([w] + ws) == Some(x + y)
  {
    assert ([w] + ws)[1..] == ws;
  }

  /** A string of digits, followed by a letter, has no space. */
  lemma NoSpace(digits: string, unit: char)
    requires forall i :: 0 <= i < |digits| ==> '0' <= digits[i] <= '9'
    requires unit != ' '
    ensures ' ' !in digits + [unit]
  {
    var w := digits + [unit];
    forall i | 0 <= i < |w|
      ensures w[i] != ' '
    {
      if i < |digits| {
        assert w[i] == digits[i];
      } else {
        assert w[i] == unit;
      }
    }
  }

  /** The formatted parts of a split duration contain no spaces. */
  lemma PartsHaveNoSpace(c: Clock)
    requires c.hours < 24 && c.minutes < 60 && c.seconds < 60
    ensures forall i :: 0 <= i < |Parts(c)| ==> ' ' !in Parts(c)[i]
  {
    NoSpace(Decimal(c.days), 'd');
    NoSpace(Pad2(c.hours), 'h');
    NoSpace(Pad2(c.minutes), 'm');
    NoSpace(Pad2(c.seconds), 's');
  }

  /** The formatted parts of a split duration add up to the duration. */
  lemma PartsAddUp(c: Clock)
    requires c.hours < 24 && c.minutes < 60 && c.seconds < 60
    ensures SumWords(Parts(c)) == Some(c.days * 86400 + c.hours * 3600 + c.minutes * 60 + c.seconds)
  {
    var dw, hw, mw, sw := Decimal(c.days) + "d", Pad2(c.hours) + "h", Pad2(c.minutes) + "m", Pad2(c.seconds) + "s";
    DecimalReadsBack(c.days);
    WordReadsBack(Decimal(c.days), c.days, 'd');
    PaddedWordReadsBack(c.hours, 'h');
    PaddedWordReadsBack(c.minutes, 'm');
    PaddedWordReadsBack(c.seconds, 's');
    SumCons(sw, [], c.seconds, 0);
    assert [sw] + [] == [sw];
    SumCons(mw, [sw], c.minutes * 60, c.seconds);
    var ms := [mw] + [sw];
    var hs := if c.days != 0 || c.hours != 0 then [hw] + ms else ms;
    if c.days != 0 || c.hours != 0 {
      SumCons(hw, ms, c.hours * 3600, c.minutes * 60 + c.seconds);
    }
    assert SumWords(hs) == Some(c.hours * 3600 + c.minutes * 60 + c.seconds);
    if c.days != 0 {
      SumCons(dw, hs, c.days * 86400, c.hours * 3600 + c.minutes * 60 + c.seconds);
      assert Parts(c) == [dw] + hs;
    } else {
      assert Parts(c) == hs;
    }
  }

  /** The text `format_seconds` builds for `n` whole seconds reads back as
      `n`, and splits into exactly the parts it appended. */
  lemma FormatReadsBack(n: nat)
    ensures Words(Join(Parts(Split(n)))) == Parts(Split(n))
    ensures Duration(Join(Parts(Split(n)))) == Some(n)
  {
    var c := Split(n);
    var ps := Parts(c);
    PartsHaveNoSpace(c);
    PartsAddUp(c);
    WordsOfJoin(ps);
    assert Duration(Join(ps)) == SumWords(ps);
  }
}
