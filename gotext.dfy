/** The pieces of Go's standard library that the logging kernel uses to
    render text: strings.Join, the decimal form of an int (what %v prints),
    the quoted form of a string (what %#v prints, via strconv.Quote) and
    path/filepath.Base on a slash-separated path. */
module GoText {
  import opened Wrappers

  /** strings.Join: the parts with `sep` between neighbours. */
  function Join(parts: seq<string>, sep: string): string
  {
    if |parts| == 0 then ""
    else if |parts| == 1 then parts[0]
    else parts[0] + sep + Join(parts[1..], sep)
  }

  /** Joining two non-empty lists is joining their joins. */
  lemma {:induction false} JoinConcat(a: seq<string>, b: seq<string>, sep: string)
    requires |a| > 0 && |b| > 0
    ensures Join(a + b, sep) == Join(a, sep) + sep + Join(b, sep)
  {
    if |a| == 1 {
      assert (a + b)[1..] == b;
    } else {
      assert (a + b)[1..] == a[1..] + b;
      JoinConcat(a[1..], b, sep);
    }
  }

  /** Joining a part in front of a non-empty list. */
  lemma JoinCons(a: string, rest: seq<string>, sep: string)
    requires |rest| > 0
    ensures Join([a] + rest, sep) == a + sep + Join(rest, sep)
  {
    assert ([a] + rest)[1..] == rest;
  }

  /** Two parts joined are the parts around one separator. */
  lemma JoinTwo(a: string, b: string, sep: string)
    ensures Join([a, b], sep) == a + sep + b
  {
    assert [a, b][1..] == [b];
  }

  /** Three-part layout used for a formatted line: first part, the middle
      joined, last part. */
  lemma JoinFrame(first: string, middle: seq<string>, last: string, sep: string)
    requires |middle| > 0
    ensures Join([first] + middle + [last], sep) == first + sep + Join(middle, sep) + sep + last
  {
    JoinConcat([first], middle, sep);
    JoinConcat([first] + middle, [last], sep);
  }

  // ---------------------------------------------------------------------------
  // Decimal rendering of integers (fmt's %v and %#v of an int)

  predicate IsDigit(c: char)
  {
    '0' <= c <= '9'
  }

  function DigitChar(d: nat): (c: char)
    requires d < 10
    ensures IsDigit(c)
  {
    (48 + d) as char
  }

  /** Decimal digits of `n`, most significant first, without leading zeros. */
  function NatToDecimal(n: nat): (r: string)
    ensures |r| > 0
    ensures AllDigits(r)
    ensures r[0] == '0' ==> n == 0 && |r| == 1
    decreases n
  {
    if n < 10 then [DigitChar(n)] else NatToDecimal(n / 10) + [DigitChar(n % 10)]
  }

  predicate AllDigits(s: string)
  {
    forall i :: 0 <= i < |s| ==> IsDigit(s[i])
  }

  /** The value of a string of decimal digits. */
  function DecimalValue(s: string): int
    requires AllDigits(s)
  {
    if |s| == 0 then 0
    else DecimalValue(s[..|s| - 1]) * 10 + ((s[|s| - 1] as int) - 48)
  }

  lemma {:induction false} NatDecimalRoundTrip(n: nat)
    ensures DecimalValue(NatToDecimal(n)) == n
    decreases n
  {
    if n >= 10 {
      var r := NatToDecimal(n / 10);
      var s := r + [DigitChar(n % 10)];
      assert s[..|s| - 1] == r;
      NatDecimalRoundTrip(n / 10);
    }
  }

  /** What %v prints for an int: an optional '-' and the decimal digits. */
  function IntToDecimal(i: int): (r: string)
    ensures |r| > 0
    ensures i < 0 <==> r[0] == '-'
  {
    if i < 0 then "-" + NatToDecimal(-i) else NatToDecimal(i)
  }

  /** Reads back what IntToDecimal writes. */
  function ParseInt(s: string): Option<int>
  {
    if |s| > 0 && s[0] == '-' then
      if |s| > 1 && AllDigits(s[1..]) then Some(-DecimalValue(s[1..])) else None
    else if |s| > 0 && AllDigits(s) then Some(DecimalValue(s))
    else None
  }

  /** The decimal text of an int determines the int. */
  lemma IntDecimalRoundTrip(i: int)
    ensures ParseInt(IntToDecimal(i)) == Some(i)
  {
    if i < 0 {
      var d := NatToDecimal(-i);
      var s := IntToDecimal(i);
      assert s == "-" + d && s[1..] == d;
      NatDecimalRoundTrip(-i);
    } else {
      var d := NatToDecimal(i);
      assert IsDigit(d[0]);
      NatDecimalRoundTrip(i);
    }
  }

  // ---------------------------------------------------------------------------
  // Go-syntax quoting of strings (fmt's %#v of a string, i.e. strconv.Quote)

  /** The letter strconv.Quote writes after a backslash for `c`: '"', '\'
      and the seven named control escapes; None for a character written as
      it is. */
  function EscapeCode(c: char): Option<char>
  {
    if c == '"' then Some('"')
    else if c == '\\' then Some('\\')
    else if c == 7 as char then Some('a')
    else if c == 8 as char then Some('b')
    else if c == 12 as char then Some('f')
    else if c == '\n' then Some('n')
    else if c == '\r' then Some('r')
    else if c == '\t' then Some('t')
    else if c == 11 as char then Some('v')
    else None
  }

  /** The escape strconv.Quote writes for one character. */
  function EscapeChar(c: char): string
  {
    if EscapeCode(c).Some? then ['\\', EscapeCode(c).value] else [c]
  }

  function Escape(s: string): string
  {
    if |s| == 0 then "" else EscapeChar(s[0]) + Escape(s[1..])
  }

  /** strconv.Quote: the escaped string between double quotes. */
  function Quote(s: string): (r: string)
    ensures |r| >= 2 && r[0] == '"' && r[|r| - 1] == '"'
  {
    "\"" + Escape(s) + "\""
  }

  /** Letters, digits and '_': characters strconv.Quote writes as they are. */
  predicate IsWordChar(c: char)
  {
    ('a' <= c <= 'z') || ('A' <= c <= 'Z') || IsDigit(c) || c == '_'
  }

  predicate Plain(s: string)
  {
    forall i :: 0 <= i < |s| ==> IsWordChar(s[i])
  }

  /** A string of word characters is quoted by putting it between double
      quotes. */
  lemma {:induction false} QuotePlain(s: string)
    requires Plain(s)
    ensures Escape(s) == s
    ensures Quote(s) == "\"" + s + "\""
  {
    if |s| > 0 {
      assert Plain(s[1..]) by {
        forall i | 0 <= i < |s[1..]|
          ensures IsWordChar(s[1..][i])
        {
          assert s[1..][i] == s[i + 1];
        }
      }
      QuotePlain(s[1..]);
      assert IsWordChar(s[0]);
      assert [s[0]] + s[1..] == s;
    }
  }

  /** The character a named escape stands for. */
  function UnescapeCode(c: char): Option<char>
  {
    if c == '"' then Some('"')
    else if c == '\\' then Some('\\')
    else if c == 'a' then Some(7 as char)
    else if c == 'b' then Some(8 as char)
    else if c == 'f' then Some(12 as char)
    else if c == 'n' then Some('\n')
    else if c == 'r' then Some('\r')
    else if c == 't' then Some('\t')
    else if c == 'v' then Some(11 as char)
    else None
  }

  /** Reads the inside of a quoted string back; a bare '"' or an unknown
      escape is an error. */
  function Unescape(s: string): Option<string>
  {
    if |s| == 0 then Some("")
    else if s[0] == '"' then None
    else if s[0] == '\\' && (|s| < 2 || UnescapeCode(s[1]).None?) then None
    else
      var width := if s[0] == '\\' then 2 else 1;
      var c := if s[0] == '\\' then UnescapeCode(s[1]).value else s[0];
      match Unescape(s[width..])
      case Some(rest) => Some([c] + rest)
      case None => None
  }

  function Unquote(q: string): Option<string>
  {
    if |q| >= 2 && q[0] == '"' && q[|q| - 1] == '"' then Unescape(q[1..|q| - 1]) else None
  }

  /** Every escape letter reads back as the character it stands for, and
      a character without one is neither '"' nor '\'. */
  lemma EscapeCodeInverse(c: char)
    ensures EscapeCode(c).Some? ==> UnescapeCode(EscapeCode(c).value) == Some(c)
    ensures EscapeCode(c).None? ==> c != '"' && c != '\\'
  {
  }

  lemma EscapeCharThenUnescape(c: char, t: string, rest: string)
    requires Unescape(t) == Some(rest)
    ensures Unescape(EscapeChar(c) + t) == Some([c] + rest)
  {
    EscapeCodeInverse(c);
    var e := EscapeChar(c) + t;
    if EscapeCode(c).Some? {
      assert e[0] == '\\' && e[1] == EscapeCode(c).value;
      assert e[2..] == t;
    } else {
      assert e[0] == c;
      assert e[1..] == t;
    }
  }

  lemma {:induction false} EscapeRoundTrip(s: string)
    ensures Unescape(Escape(s)) == Some(s)
  {
    if |s| > 0 {
      EscapeRoundTrip(s[1..]);
      EscapeCharThenUnescape(s[0], Escape(s[1..]), s[1..]);
      assert [s[0]] + s[1..] == s;
    }
  }

  /** A quoted string reads back as itself. */
  lemma QuoteRoundTrip(s: string)
    ensures Unquote(Quote(s)) == Some(s)
  {
    var q := Quote(s);
    assert q[1..|q| - 1] == Escape(s);
    EscapeRoundTrip(s);
  }

  /** Reading one escaped character in front of any text: the character
      comes back and the reading goes on with the text. */
  lemma EscapeCharThen(c: char, t: string)
    ensures Unescape(t).None? ==> Unescape(EscapeChar(c) + t).None?
    ensures Unescape(t).Some? ==> Unescape(EscapeChar(c) + t) == Some([c] + Unescape(t).value)
  {
    EscapeCodeInverse(c);
    var e := EscapeChar(c) + t;
    if EscapeCode(c).Some? {
      assert e[0] == '\\' && e[1] == EscapeCode(c).value;
      assert e[2..] == t;
    } else {
      assert e[0] == c;
      assert e[1..] == t;
    }
  }

  /** Unescaping an escaped string followed by any text reads the whole
      string back and then goes on with the text: an escaped body never
      consumes what follows it. */
  lemma {:induction false} EscapeThen(s: string, u: string)
    ensures Unescape(u).None? ==> Unescape(Escape(s) + u).None?
    ensures Unescape(u).Some? ==> Unescape(Escape(s) + u) == Some(s + Unescape(u).value)
  {
    if |s| == 0 {
      assert Escape(s) + u == u;
      assert Unescape(u).Some? ==> s + Unescape(u).value == Unescape(u).value;
    } else {
      var head, t := s[0], s[1..];
      var v := Escape(t) + u;
      EscapeThen(t, u);
      assert Escape(s) + u == EscapeChar(head) + v;
      EscapeCharThen(head, v);
      assert Unescape(u).Some? ==> [head] + (t + Unescape(u).value) == s + Unescape(u).value;
    }
  }

  /** A quoted string is self-delimiting: nothing can follow it inside one
      quoted value, so a rendered argument never runs into its neighbours. */
  lemma QuoteSelfDelimiting(s: string, t: string)
    requires |t| > 0
    ensures Unquote(Quote(s) + t) == None
  {
    var q := Quote(s) + t;
    if q[|q| - 1] == '"' {
      var tail := "\"" + t[..|t| - 1];
      assert q[1..|q| - 1] == Escape(s) + tail;
      assert Unescape(tail) == None;
      EscapeThen(s, tail);
    }
  }

  // ---------------------------------------------------------------------------
  // path/filepath.Base on a '/'-separated path

  function StripTrailingSlashes(s: string): (r: string)
    ensures r <= s
    ensures |r| == 0 || r[|r| - 1] != '/'
    ensures forall i :: |r| <= i < |s| ==> s[i] == '/'
    ensures '/' !in s ==> r == s
  {
    if |s| > 0 && s[|s| - 1] == '/' then StripTrailingSlashes(s[..|s| - 1]) else s
  }

  /** The text after the last '/' of `s`: a suffix without '/' that is
      either all of `s` or preceded by a '/'. */
  function AfterLastSlash(s: string): (r: string)
    ensures '/' !in r
    ensures |r| <= |s| && r == s[|s| - |r|..]
    ensures |r| == |s| || s[|s| - |r| - 1] == '/'
    ensures |s| > 0 && s[|s| - 1] != '/' ==> |r| > 0
    ensures '/' !in s ==> r == s
  {
    if |s| == 0 then ""
    else if s[|s| - 1] == '/' then ""
    else AfterLastSlash(s[..|s| - 1]) + [s[|s| - 1]]
  }

  /** filepath.Base: the last element of the path; "." for the empty path,
      "/" for a path of slashes only. */
  function BaseName(path: string): (r: string)
    ensures |r| > 0
    ensures r == "/" || '/' !in r
    ensures |path| > 0 && '/' !in path ==> r == path
    ensures |path| == 0 ==> r == "."
    ensures |path| > 0 && |StripTrailingSlashes(path)| == 0 ==> r == "/"
    ensures var p := StripTrailingSlashes(path);
      |p| > 0 ==> && |r| <= |p| && r == p[|p| - |r|..]
                  && (|r| == |p| || p[|p| - |r| - 1] == '/')
  {
    if |path| == 0 then "."
    else
      var p := StripTrailingSlashes(path);
      if |p| == 0 then "/" else AfterLastSlash(p)
  }

  /** Once trailing slashes are dropped from a path that is not all
      slashes, its base name is the text after its last '/'. */
  lemma BaseNameOfStripped(path: string)
    requires |StripTrailingSlashes(path)| > 0
    ensures BaseName(path) == AfterLastSlash(StripTrailingSlashes(path))
  {
  }

  /** For a path that is not all slashes, filepath.Base is the path's last
      element: a suffix of the path without its trailing slashes that holds
      no '/' and is either all of it or preceded by a '/'. */
  lemma BaseNameIsLastElement(path: string)
    requires |StripTrailingSlashes(path)| > 0
    ensures var p, b := StripTrailingSlashes(path), BaseName(path);
      && '/' !in b
      && |b| <= |p| && b == p[|p| - |b|..]
      && (|b| == |p| || p[|p| - |b| - 1] == '/')
  {
    BaseNameOfStripped(path);
  }

  /** The base name of dir + "/" + elem is elem, for an element without
      '/': filepath.Base keeps the last path element and nothing else. */
  lemma BaseNameLastElement(dir: string, elem: string)
    requires |elem| > 0 && '/' !in elem
    ensures BaseName(dir + "/" + elem) == elem
  {
    var s := dir + "/" + elem;
    assert s[|s| - 1] == elem[|elem| - 1];
    assert StripTrailingSlashes(s) == s;
    assert s[|s| - |elem| - 1] == '/';
    assert s[|s| - |elem|..] == elem;
  }
}
