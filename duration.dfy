/** Uptime formatting: `humanizeDuration` in internal/perfdata.go.

    The host's uptime, a whole number of seconds, is split into days, hours,
    minutes and seconds, and every non-zero component is written as a decimal
    number followed by its unit letter, the components separated by single
    spaces: 93784 seconds become "1d 2h 3m 4s". A duration with no non-zero
    component becomes "0s".

    `ParseDuration` is a reader for that format;
    `ParseHumanizeDuration` proves that reading the formatted text gives the
    seconds back. */
module Humanize {
  import opened Outcomes

  /** Go's integer division, which truncates toward zero (Dafny's `/` is Euclidean). */
  function Quot(a: int, b: int): (q: int)
    requires b > 0
    ensures a >= 0 ==> q == a / b && 0 <= a - q * b < b
    ensures a < 0 ==> q <= 0 && -b < a - q * b <= 0
  {
    if a >= 0 then a / b else -((-a) / b)
  }

  /** Lines 208-214: the components as the code computes them, each division
      truncating as Go's does. For a non-negative duration they are the usual
      mixed-radix digits; for a negative one none of them is positive. */
  function Components(seconds: int): (c: (int, int, int, int))
    ensures seconds >= 0 ==>
      && c.0 >= 0 && 0 <= c.1 < 24 && 0 <= c.2 < 60 && 0 <= c.3 < 60
      && c.0 * 86400 + c.1 * 3600 + c.2 * 60 + c.3 == seconds
    ensures seconds < 0 ==> c.0 <= 0 && c.1 <= 0 && c.2 <= 0 && c.3 <= 0
  {
    var days := Quot(seconds, 86400);
    var afterDays := seconds - days * 86400;
    var hours := Quot(afterDays, 3600);
    var afterHours := afterDays - hours * 3600;
    var minutes := Quot(afterHours, 60);
    var rest := afterHours - minutes * 60;
    (days, hours, minutes, rest)
  }

  // ---------------------------------------------------------------------------
  // Decimal numerals (Go's `%d` verb for a positive int)

  predicate IsDigit(c: char) { '0' <= c <= '9' }

  function DigitChar(d: nat): (c: char)
    requires d < 10
    ensures IsDigit(c) && DigitValue(c) == d
  {
    ['0', '1', '2', '3', '4', '5', '6', '7', '8', '9'][d]
  }

  function DigitValue(c: char): (d: nat)
    requires IsDigit(c)
    ensures d < 10
  {
    c as int - '0' as int
  }

  function NatToString(n: nat): (r: string)
    ensures |r| > 0
    ensures forall i :: 0 <= i < |r| ==> IsDigit(r[i])
    ensures r[0] == '0' ==> n == 0
  {
    if n < 10 then [DigitChar(n)] else NatToString(n / 10) + [DigitChar(n % 10)]
  }

  /** The value of a string of decimal digits. */
  function ParseNat(s: string): nat
    requires forall i :: 0 <= i < |s| ==> IsDigit(s[i])
  {
    if s == [] then 0
    else ParseNat(s[..|s| - 1]) * 10 + DigitValue(s[|s| - 1])
  }

  lemma {:induction false} ParseNatToString(n: nat)
    ensures ParseNat(NatToString(n)) == n
  {
    var r := NatToString(n);
    if n >= 10 {
      assert r[..|r| - 1] == NatToString(n / 10);
      ParseNatToString(n / 10);
    }
  }

  // ---------------------------------------------------------------------------
  // The formatter

  /** One component as line 216, 219, 222 or 225 appends it: "<n><unit> ". */
  function Part(n: int, unit: char): string
  {
    if n > 0 then NatToString(n) + [unit, ' '] else ""
  }

  /** The string `res` after lines 215-226: every positive component followed by a space. */
  function Render(c: (int, int, int, int)): string
  {
    Part(c.0, 'd') + (Part(c.1, 'h') + (Part(c.2, 'm') + Part(c.3, 's')))
  }

  /** `humanizeDuration(duration)`, with `seconds` the whole seconds of the
      duration (`int(duration.Seconds())`); lines 227-230 turn an empty `res`
      into "0s" and otherwise drop its trailing space. */
  function HumanizeDuration(seconds: int): string
  {
    var res := Render(Components(seconds));
    if |res| == 0 then "0s" else res[..|res| - 1]
  }

  /** Lines 227-230 applied to the parts the method has appended. */
  lemma HumanizeRendered(duration: int, res: string)
    requires res == Render(Components(duration))
    ensures HumanizeDuration(duration) == if |res| == 0 then "0s" else res[..|res| - 1]
  {
  }

  lemma RegroupParts(a: string, b: string, c: string, d: string)
    ensures ((a + b) + c) + d == a + (b + (c + d))
  {
  }

  /** humanizeDuration (lines 206-231) as the code runs it: `seconds` is
      reduced component by component and `res` grows one part at a time. */
  method Humanize(duration: int) returns (text: string)
    ensures text == HumanizeDuration(duration)
  {
    var res := "";
    var seconds := duration;
    var days := Quot(seconds, 86400);
    seconds := seconds - days * 86400;
    var hours := Quot(seconds, 3600);
    seconds := seconds - hours * 3600;
    var minutes := Quot(seconds, 60);
    seconds := seconds - minutes * 60;
    assert (days, hours, minutes, seconds) == Components(duration);
    if days > 0 {
      res := res + (NatToString(days) + ['d', ' ']);
    }
    assert res == Part(days, 'd');
    ghost var afterDays := res;
    if hours > 0 {
      res := res + (NatToString(hours) + ['h', ' ']);
    }
    assert res == afterDays + Part(hours, 'h');
    ghost var afterHours := res;
    if minutes > 0 {
      res := res + (NatToString(minutes) + ['m', ' ']);
    }
    assert res == afterHours + Part(minutes, 'm');
    ghost var afterMinutes := res;
    if seconds > 0 {
      res := res + (NatToString(seconds) + ['s', ' ']);
    }
    assert res == afterMinutes + Part(seconds, 's');
    RegroupParts(Part(days, 'd'), Part(hours, 'h'), Part(minutes, 'm'), Part(seconds, 's'));
    assert res == Render(Components(duration));
    HumanizeRendered(duration, res);
    if |res| == 0 {
      return "0s";
    }
    return res[..|res| - 1];
  }

  // ---------------------------------------------------------------------------
  // A reader for the format

  /** A component read back: its count and its unit letter. */
  datatype Term = Term(count: nat, unit: char)

  function UnitSeconds(unit: char): nat
  {
    match unit
    case 'd' => 86400
    case 'h' => 3600
    case 'm' => 60
    case _ => 1
  }

  predicate IsUnit(c: char) { c == 'd' || c == 'h' || c == 'm' || c == 's' }

  /** The number of leading digits of `s`. */
  function DigitRun(s: string): (n: nat)
    ensures n <= |s|
    ensures forall i :: 0 <= i < n ==> IsDigit(s[i])
    ensures n < |s| ==> !IsDigit(s[n])
  {
    if s != [] && IsDigit(s[0]) then 1 + DigitRun(s[1..]) else 0
  }

  /** Reads `s` as a list of "<digits><unit> " terms, every term followed by
      exactly one space; `None` for anything else. */
  function ParseTerms(s: string): Option<seq<Term>>
    decreases |s|
  {
    if s == [] then Some([])
    else
      var n := DigitRun(s);
      if 0 < n && n + 1 < |s| && IsUnit(s[n]) && s[n + 1] == ' ' then
        match ParseTerms(s[n + 2..])
        case None => None
        case Some(rest) => Some([Term(ParseNat(s[..n]), s[n])] + rest)
      else None
  }

  function Total(ts: seq<Term>): nat
  {
    if ts == [] then 0 else ts[0].count * UnitSeconds(ts[0].unit) + Total(ts[1..])
  }

  /** The number of seconds a humanized duration stands for. */
  function ParseDuration(text: string): Option<nat>
  {
    match ParseTerms(text + " ")
    case None => None
    case Some(ts) => Some(Total(ts))
  }

  /** The term one component stands for: none when it is not positive. */
  function PartTerms(n: int, unit: char): seq<Term>
  {
    if n > 0 then [Term(n, unit)] else []
  }

  /** The terms a list of components stands for: its positive components, in
      the order d, h, m, s. */
  function TermsOf(c: (int, int, int, int)): seq<Term>
  {
    PartTerms(c.0, 'd') + (PartTerms(c.1, 'h') + (PartTerms(c.2, 'm') + PartTerms(c.3, 's')))
  }

  // ---------------------------------------------------------------------------
  // Properties

  /** A negative duration prints as "0s", as a zero one does. */
  lemma NonPositiveIsZeroSeconds(seconds: int)
    requires seconds <= 0
    ensures HumanizeDuration(seconds) == "0s"
  {
    var c := Components(seconds);
    assert c.0 <= 0 && c.1 <= 0 && c.2 <= 0 && c.3 <= 0;
    assert Part(c.0, 'd') == "" && Part(c.1, 'h') == "" && Part(c.2, 'm') == "" && Part(c.3, 's') == "";
  }

  /** `res` is empty exactly when no component is positive; otherwise it starts
      with a digit and ends with a unit letter and a space. */
  lemma RenderShape(c: (int, int, int, int))
    ensures var res := Render(c);
      && (res == [] <==> c.0 <= 0 && c.1 <= 0 && c.2 <= 0 && c.3 <= 0)
      && (res != [] ==> |res| >= 3 && IsDigit(res[0]) && res[|res| - 1] == ' ' && IsUnit(res[|res| - 2]))
      && res != "0s "
  {
    var res := Render(c);
    if c.0 > 0 {
      var k := |NatToString(c.0)|;
      assert res[k] == 'd';
      assert res != "0s " by { if k < 3 { assert "0s "[k] != 'd'; } }
    } else if c.1 > 0 {
      var k := |NatToString(c.1)|;
      assert res[k] == 'h';
      assert res != "0s " by { if k < 3 { assert "0s "[k] != 'h'; } }
    } else if c.2 > 0 {
      var k := |NatToString(c.2)|;
      assert res[k] == 'm';
      assert res != "0s " by { if k < 3 { assert "0s "[k] != 'm'; } }
    } else if c.3 > 0 {
      assert res == NatToString(c.3) + "s ";
      assert res[0] != '0';
    }
  }

  /** The output is never empty, never starts or ends with a space, and is
      "0s" exactly when the duration has no whole second. */
  lemma HumanizeDurationShape(seconds: int)
    ensures var r := HumanizeDuration(seconds);
      && |r| > 0 && r[0] != ' ' && r[|r| - 1] != ' '
      && (r == "0s" <==> seconds <= 0)
  {
    if seconds <= 0 {
      NonPositiveIsZeroSeconds(seconds);
    } else {
      var c := Components(seconds);
      RenderShape(c);
      assert c.0 > 0 || c.1 > 0 || c.2 > 0 || c.3 > 0;
      DropTrailingSpace(Render(c));
    }
  }

  /** Lines 227-230 on a non-empty `res`: dropping its trailing space leaves
      neither a leading nor a trailing space, and "0s" only from "0s ". */
  lemma DropTrailingSpace(res: string)
    requires |res| >= 3 && IsDigit(res[0]) && res[|res| - 1] == ' ' && IsUnit(res[|res| - 2])
    ensures var r := res[..|res| - 1];
      && |r| > 0 && r[0] != ' ' && r[|r| - 1] != ' '
      && (r == "0s" <==> res == "0s ")
  {
    var r := res[..|res| - 1];
    assert res == r + " ";
  }

  lemma {:induction false} DigitRunOfNumeral(digits: string, tail: string)
    requires forall i :: 0 <= i < |digits| ==> IsDigit(digits[i])
    requires tail != [] && !IsDigit(tail[0])
    ensures DigitRun(digits + tail) == |digits|
  {
    if digits != [] {
      assert (digits + tail)[1..] == digits[1..] + tail;
      DigitRunOfNumeral(digits[1..], tail);
    } else {
      assert digits + tail == tail;
    }
  }

  /** Reading one term "<n><unit> " off the front of a string. */
  lemma ParseOneTerm(n: nat, unit: char, rest: string)
    requires IsUnit(unit)
    ensures ParseTerms(NatToString(n) + [unit, ' '] + rest) ==
      match ParseTerms(rest)
      case None => None
      case Some(ts) => Some([Term(n, unit)] + ts)
  {
    var digits := NatToString(n);
    var s := digits + [unit, ' '] + rest;
    assert s == digits + ([unit, ' '] + rest);
    DigitRunOfNumeral(digits, [unit, ' '] + rest);
    assert s[..|digits|] == digits;
    assert s[|digits|] == unit && s[|digits| + 1] == ' ';
    assert s[|digits| + 2..] == rest;
    ParseNatToString(n);
  }

  lemma ParsePart(n: int, unit: char, rest: string, ts: seq<Term>)
    requires IsUnit(unit)
    requires ParseTerms(rest) == Some(ts)
    ensures ParseTerms(Part(n, unit) + rest) == Some(PartTerms(n, unit) + ts)
  {
    if n > 0 {
      ParseOneTerm(n, unit, rest);
    } else {
      assert Part(n, unit) + rest == rest;
      assert PartTerms(n, unit) + ts == ts;
    }
  }

  /** Reading `res` back gives its positive components in order. */
  lemma ParseRender(c: (int, int, int, int))
    ensures ParseTerms(Render(c)) == Some(TermsOf(c))
  {
    var d, h, m, s := Part(c.0, 'd'), Part(c.1, 'h'), Part(c.2, 'm'), Part(c.3, 's');
    var td, th, tm, ts := PartTerms(c.0, 'd'), PartTerms(c.1, 'h'), PartTerms(c.2, 'm'), PartTerms(c.3, 's');
    assert ParseTerms(s) == Some(ts) by {
      ParsePart(c.3, 's', "", []);
      assert s + "" == s && ts + [] == ts;
    }
    var ms, tms := m + s, tm + ts;
    assert ParseTerms(ms) == Some(tms) by {
      ParsePart(c.2, 'm', s, ts);
    }
    var hms, thms := h + ms, th + tms;
    assert ParseTerms(hms) == Some(thms) by {
      ParsePart(c.1, 'h', ms, tms);
    }
    assert ParseTerms(d + hms) == Some(td + thms) by {
      ParsePart(c.0, 'd', hms, thms);
    }
  }

  /** The text lists exactly the non-zero components, in the order d, h, m, s,
      each as "<digits><unit>", separated by single spaces; a duration with no
      positive component is the single term "0s". */
  lemma HumanizeDurationTerms(seconds: int)
    ensures ParseTerms(HumanizeDuration(seconds) + " ") ==
      Some(if seconds <= 0 then [Term(0, 's')] else TermsOf(Components(seconds)))
  {
    if seconds <= 0 {
      NonPositiveIsZeroSeconds(seconds);
      ZeroSecondsTerms();
    } else {
      PositiveDurationTerms(seconds);
    }
  }

  lemma ZeroSecondsTerms()
    ensures ParseTerms("0s" + " ") == Some([Term(0, 's')])
  {
    assert "0s" + " " == NatToString(0) + ['s', ' '] + "";
    ParseOneTerm(0, 's', "");
    assert [Term(0, 's')] + [] == [Term(0, 's')];
  }

  lemma PositiveDurationTerms(seconds: int)
    requires seconds > 0
    ensures ParseTerms(HumanizeDuration(seconds) + " ") == Some(TermsOf(Components(seconds)))
  {
    var c := Components(seconds);
    var res := Render(c);
    RenderShape(c);
    ParseRender(c);
    assert res != [];
    assert HumanizeDuration(seconds) == res[..|res| - 1];
    assert res[..|res| - 1] + " " == res;
  }

  lemma TotalOfPart(n: int, unit: char, rest: seq<Term>)
    requires n >= 0
    ensures Total(PartTerms(n, unit) + rest) == n * UnitSeconds(unit) + Total(rest)
  {
    if n > 0 {
      assert ([Term(n, unit)] + rest)[1..] == rest;
    } else {
      assert [] + rest == rest;
    }
  }

  lemma TotalOfTerms(c: (int, int, int, int))
    requires c.0 >= 0 && c.1 >= 0 && c.2 >= 0 && c.3 >= 0
    ensures Total(TermsOf(c)) == c.0 * 86400 + c.1 * 3600 + c.2 * 60 + c.3
  {
    var td, th, tm, ts := PartTerms(c.0, 'd'), PartTerms(c.1, 'h'), PartTerms(c.2, 'm'), PartTerms(c.3, 's');
    TotalOfPart(c.3, 's', []);
    assert ts + [] == ts;
    TotalOfPart(c.2, 'm', ts);
    TotalOfPart(c.1, 'h', tm + ts);
    TotalOfPart(c.0, 'd', th + (tm + ts));
  }

  /** Round trip: reading the humanized text gives back the number of seconds. */
  lemma ParseHumanizeDuration(seconds: nat)
    ensures ParseDuration(HumanizeDuration(seconds)) == Some(seconds)
  {
    var text := HumanizeDuration(seconds);
    var ts := if seconds == 0 then [Term(0, 's')] else TermsOf(Components(seconds));
    assert ParseTerms(text + " ") == Some(ts) by {
      HumanizeDurationTerms(seconds);
    }
    assert Total(ts) == seconds by {
      if seconds == 0 {
        assert ts[1..] == [];
      } else {
        TotalOfTerms(Components(seconds));
      }
    }
  }
}
