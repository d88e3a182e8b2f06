/** The small pieces of JavaScript string behaviour the dashboard relies on:
    rendering integers in template literals, `parseInt`, `String.split` and
    `Array.join`, and the "k/d/a" text that carries a game's deaths. */
module Text {

  import opened Options

  /** What `parseInt` yields: an integer, or NaN when no digit was found. */
  datatype JsInt = Num(value: int) | NaN

  predicate IsDigit(c: char)
  {
    '0' <= c <= '9'
  }

  predicate AllDigits(s: string)
  {
    forall i :: 0 <= i < |s| ==> IsDigit(s[i])
  }

  function DigitChar(d: nat): (c: char)
    requires d < 10
    ensures IsDigit(c)
  {
    (('0' as int) + d) as char
  }

  function DigitValue(c: char): (d: nat)
    requires IsDigit(c)
    ensures d < 10
  {
    (c as int) - ('0' as int)
  }

  /** Decimal rendering of a natural number (no sign, no leading zeros). */
  function NatToString(n: nat): (s: string)
    ensures |s| > 0
    ensures AllDigits(s)
    decreases n
  {
    if n < 10 then [DigitChar(n)] else NatToString(n / 10) + [DigitChar(n % 10)]
  }

  /** Decimal rendering of an integer, with a leading '-' when negative. */
  function IntToString(i: int): (s: string)
    ensures |s| > 0
  {
    if i < 0 then "-" + NatToString(-i) else NatToString(i)
  }

  /** The value of a string of decimal digits (the empty string is 0). */
  function DigitsValue(s: string): nat
    requires AllDigits(s)
    decreases |s|
  {
    if |s| == 0 then 0 else DigitsValue(s[..|s| - 1]) * 10 + DigitValue(s[|s| - 1])
  }

  /** The longest prefix of `s` made of decimal digits. */
  function LeadingDigits(s: string): (d: string)
    ensures AllDigits(d)
    ensures |d| <= |s| && d == s[..|d|]
    ensures |d| < |s| ==> !IsDigit(s[|d|])
    decreases |s|
  {
    if |s| == 0 || !IsDigit(s[0]) then "" else [s[0]] + LeadingDigits(s[1..])
  }

  predicate IsSpace(c: char)
  {
    c == ' ' || c == '\t' || c == '\n' || c == '\r'
  }

  /** `s` without its leading white space. */
  function TrimStart(s: string): (t: string)
    ensures |t| <= |s| && t == s[|s| - |t|..]
    ensures |t| > 0 ==> !IsSpace(t[0])
    decreases |s|
  {
    if |s| > 0 && IsSpace(s[0]) then TrimStart(s[1..]) else s
  }

  /** The value of the leading digits of `t`, or NaN when `t` does not start
      with a digit. */
  function ParseDigits(t: string): JsInt
  {
    var ds := LeadingDigits(t);
    if ds == "" then NaN else Num(DigitsValue(ds))
  }

  function Negate(j: JsInt): JsInt
  {
    match j
    case Num(v) => Num(0 - v)
    case NaN => NaN
  }

  /** JavaScript `parseInt(s)`: skip leading white space, accept one optional
      sign, then read the longest run of decimal digits; NaN if that run is
      empty. Anything after the digits is ignored. */
  function ParseInt(s: string): JsInt
  {
    var t := TrimStart(s);
    if |t| > 0 && t[0] == '-' then Negate(ParseDigits(t[1..]))
    else if |t| > 0 && t[0] == '+' then ParseDigits(t[1..])
    else ParseDigits(t)
  }

  lemma {:induction false} LeadingDigitsOfDigits(s: string)
    requires AllDigits(s)
    ensures LeadingDigits(s) == s
    decreases |s|
  {
    if |s| > 0 {
      LeadingDigitsOfDigits(s[1..]);
    }
  }

  lemma {:induction false} DigitsValueOfNatToString(n: nat)
    ensures DigitsValue(NatToString(n)) == n
    decreases n
  {
    var s := NatToString(n);
    if n >= 10 {
      DigitsValueOfNatToString(n / 10);
      assert s[..|s| - 1] == NatToString(n / 10);
    }
  }

  /** A text with no leading white space is left alone by TrimStart. */
  lemma TrimStartNoSpace(s: string)
    requires |s| > 0 && !IsSpace(s[0])
    ensures TrimStart(s) == s
  {
  }

  lemma ParseDigitsOfDigits(ds: string)
    requires |ds| > 0 && AllDigits(ds)
    ensures ParseDigits(ds) == Num(DigitsValue(ds))
  {
    LeadingDigitsOfDigits(ds);
  }

  /** A run of digits parses as its value. */
  lemma ParseIntOfDigits(s: string)
    requires |s| > 0 && AllDigits(s)
    ensures ParseInt(s) == Num(DigitsValue(s))
  {
    assert IsDigit(s[0]);
    TrimStartNoSpace(s);
    ParseDigitsOfDigits(s);
  }

  /** A '-' followed by a run of digits parses as the negated value. */
  lemma {:induction false} ParseIntOfNegative(ds: string)
    requires |ds| > 0 && AllDigits(ds)
    ensures ParseInt("-" + ds) == Num(0 - DigitsValue(ds))
  {
    var s := "-" + ds;
    assert s[0] == '-';
    TrimStartNoSpace(s);
    assert s[1..] == ds;
    ParseDigitsOfDigits(ds);
    ParseIntOfSigned(s, ds);
    assert ParseInt(s) == Num(0 - DigitsValue(ds));
  }

  lemma ParseIntOfSigned(s: string, ds: string)
    requires |s| > 0 && s[0] == '-' && TrimStart(s) == s && s[1..] == ds
    requires ParseDigits(ds).Num?
    ensures ParseInt(s) == Num(0 - ParseDigits(ds).value)
  {
  }

  lemma ParseIntZero()
    ensures ParseInt("0") == Num(0)
  {
    assert AllDigits("0");
    ParseIntOfDigits("0");
    assert DigitsValue("0") == 0 by {
      assert "0"[..0] == [];
    }
  }

  /** Reading back the decimal rendering of an integer gives the integer. */
  lemma ParseIntRoundTrip(i: int)
    ensures ParseInt(IntToString(i)) == Num(i)
  {
    if i < 0 {
      var n: nat := -i;
      var ds := NatToString(n);
      assert IntToString(i) == "-" + ds;
      ParseIntOfNegative(ds);
      DigitsValueOfNatToString(n);
      assert 0 - DigitsValue(ds) == i;
    } else {
      var n: nat := i;
      var ds := NatToString(n);
      assert IntToString(i) == ds;
      ParseIntOfDigits(ds);
      DigitsValueOfNatToString(n);
    }
  }

  /** JavaScript `s.split(sep)` for a one-character separator. */
  function Split(s: string, sep: char): (parts: seq<string>)
    ensures |parts| >= 1
    ensures forall i :: 0 <= i < |parts| ==> sep !in parts[i]
    decreases |s|
  {
    if |s| == 0 then [""]
    else
      var rest := Split(s[1..], sep);
      if s[0] == sep then [""] + rest
      else [[s[0]] + rest[0]] + rest[1..]
  }

  /** JavaScript `parts.join(sep)` for a one-character separator. */
  function Join(parts: seq<string>, sep: char): string
    decreases |parts|
  {
    if |parts| == 0 then ""
    else if |parts| == 1 then parts[0]
    else parts[0] + [sep] + Join(parts[1..], sep)
  }

  /** Joining the pieces of a split gives back the original text. */
  lemma {:induction false} JoinSplit(s: string, sep: char)
    ensures Join(Split(s, sep), sep) == s
    decreases |s|
  {
    if |s| > 0 {
      var rest := Split(s[1..], sep);
      JoinSplit(s[1..], sep);
      if s[0] == sep {
        assert Split(s, sep) == [""] + rest;
        assert ([""] + rest)[1..] == rest;
        assert s == [sep] + s[1..];
      } else {
        var parts := Split(s, sep);
        assert parts == [[s[0]] + rest[0]] + rest[1..];
        if |rest| == 1 {
          assert Join(rest, sep) == rest[0];
        } else {
          assert Join(rest, sep) == rest[0] + [sep] + Join(rest[1..], sep);
          assert parts[1..] == rest[1..];
        }
        assert s == [s[0]] + s[1..];
      }
    }
  }

  /** A text without the separator splits into itself alone. */
  lemma {:induction false} SplitNoSep(s: string, sep: char)
    requires sep !in s
    ensures Split(s, sep) == [s]
    decreases |s|
  {
    if |s| > 0 {
      SplitNoSep(s[1..], sep);
      assert [s[0]] + s[1..] == s;
    }
  }

  /** Splitting at the first separator: the text before it is the first piece. */
  lemma {:induction false} SplitAtSep(x: string, sep: char, y: string)
    requires sep !in x
    ensures Split(x + [sep] + y, sep) == [x] + Split(y, sep)
    decreases |x|
  {
    if |x| == 0 {
      assert x + [sep] + y == [sep] + y;
      assert ([sep] + y)[1..] == y;
    } else {
      var s := x + [sep] + y;
      assert s[0] == x[0];
      assert s[1..] == x[1..] + [sep] + y;
      SplitAtSep(x[1..], sep, y);
      assert [x[0]] + x[1..] == x;
    }
  }

  /** Splitting the join of separator-free pieces gives back the pieces. */
  lemma {:induction false} SplitJoin(parts: seq<string>, sep: char)
    requires |parts| >= 1
    requires forall i :: 0 <= i < |parts| ==> sep !in parts[i]
    ensures Split(Join(parts, sep), sep) == parts
    decreases |parts|
  {
    if |parts| == 1 {
      SplitNoSep(parts[0], sep);
    } else {
      SplitJoin(parts[1..], sep);
      SplitAtSep(parts[0], sep, Join(parts[1..], sep));
      assert [parts[0]] + parts[1..] == parts;
    }
  }

  /** JavaScript `s.split(sep)[i] || default`: the i-th piece, or the default
      when that piece is missing or empty. */
  function PieceOr(s: string, sep: char, i: nat, default: string): (r: string)
    ensures r == default || (r != "" && sep !in r)
    ensures i < |Split(s, sep)| && Split(s, sep)[i] != "" ==> r == Split(s, sep)[i]
    ensures !(i < |Split(s, sep)| && Split(s, sep)[i] != "") ==> r == default
  {
    var parts := Split(s, sep);
    if i < |parts| && parts[i] != "" then parts[i] else default
  }

  /** The "kills/deaths/assists" text the routes store for a game: the
      three counts rendered in decimal and joined by '/'. */
  function KdaText(kills: nat, deaths: nat, assists: nat): string
  {
    Join([NatToString(kills), NatToString(deaths), NatToString(assists)], '/')
  }

  /** Deaths re-read from a stored kda text, as
      `parseInt(kda?.split('/')[1] || '0')`: an absent text, or a missing or
      empty second piece, reads as 0. */
  function KdaDeaths(kda: Option<string>): JsInt
  {
    match kda
    case None => ParseInt("0")
    case Some(t) => ParseInt(PieceOr(t, '/', 1, "0"))
  }

  /** Absent kda text reads as zero deaths. */
  lemma {:induction false} KdaDeathsAbsent()
    ensures KdaDeaths(None) == Num(0)
  {
    ParseIntZero();
  }

  /** Kda text with no '/' reads as zero deaths. */
  lemma {:induction false} KdaDeathsNoSlash(t: string)
    requires '/' !in t
    ensures KdaDeaths(Some(t)) == Num(0)
  {
    SplitNoSep(t, '/');
    var piece := PieceOr(t, '/', 1, "0");
    assert piece == "0";
    ParseIntZero();
  }

  lemma NatToStringNoSlash(n: nat)
    ensures '/' !in NatToString(n)
  {
    var s := NatToString(n);
    forall i | 0 <= i < |s|
      ensures s[i] != '/'
    {
      assert IsDigit(s[i]);
    }
  }

  /** Storing a game as "k/d/a" and re-reading its deaths recovers d. */
  lemma KdaDeathsRoundTrip(kills: nat, deaths: nat, assists: nat)
    ensures KdaDeaths(Some(KdaText(kills, deaths, assists))) == Num(deaths)
  {
    var parts := [NatToString(kills), NatToString(deaths), NatToString(assists)];
    NatToStringNoSlash(kills);
    NatToStringNoSlash(deaths);
    NatToStringNoSlash(assists);
    SplitJoin(parts, '/');
    ParseIntRoundTrip(deaths);
  }
}
