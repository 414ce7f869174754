/** The JavaScript string built-ins the portal's logic relies on: `split` with a
    string separator, `join`, `filter(Boolean)`, `Number.prototype.toString`,
    `parseInt`, `padStart` and `toUpperCase`, restricted to what the portal
    feeds them. */
module Strings {

  import opened Types

  /** `s.split(sep)` for a non-empty separator: occurrences are found left to
      right and do not overlap; the result always has at least one piece. */
  function Split(s: string, sep: string): (pieces: seq<string>)
    requires |sep| > 0
    ensures |pieces| >= 1
    decreases |s|
  {
    if |s| < |sep| then [s]
    else if s[..|sep|] == sep then [[]] + Split(s[|sep|..], sep)
    else
      var rest := Split(s[1..], sep);
      [[s[0]] + rest[0]] + rest[1..]
  }

  /** `pieces.join(sep)`. */
  function Join(pieces: seq<string>, sep: string): string
  {
    if |pieces| == 0 then []
    else if |pieces| == 1 then pieces[0]
    else pieces[0] + sep + Join(pieces[1..], sep)
  }

  /** `pieces.filter(Boolean)`: the empty string is the only falsy string. */
  function NonEmpty(pieces: seq<string>): (kept: seq<string>)
    ensures forall k :: 0 <= k < |kept| ==> kept[k] != []
    ensures |kept| <= |pieces|
  {
    if pieces == [] then []
    else if pieces[0] == [] then NonEmpty(pieces[1..])
    else [pieces[0]] + NonEmpty(pieces[1..])
  }

  /** `path.split('/').filter(Boolean)`: the segments of a path. */
  function Segments(path: string): seq<string>
  {
    NonEmpty(Split(path, "/"))
  }

  lemma {:induction false} NonEmptyAppend(a: seq<string>, b: seq<string>)
    ensures NonEmpty(a + b) == NonEmpty(a) + NonEmpty(b)
  {
    if a != [] {
      assert (a + b)[0] == a[0] && (a + b)[1..] == a[1..] + b;
      NonEmptyAppend(a[1..], b);
      if a[0] == [] {
        assert NonEmpty(a + b) == NonEmpty(a[1..] + b);
      } else {
        assert NonEmpty(a + b) == [a[0]] + NonEmpty(a[1..] + b);
        assert NonEmpty(a) == [a[0]] + NonEmpty(a[1..]);
      }
    } else {
      assert a + b == b;
    }
  }

  /** Concatenation is associative; stated over an opaque element type, where
      the solver does not look inside the elements. */
  lemma ConcatAssoc<T>(x: seq<T>, y: seq<T>, z: seq<T>)
    ensures x + (y + z) == (x + y) + z
  {
  }

  /** One step of splitting on a one-character separator. */
  lemma {:induction false} SplitCons(s: string, c: char)
    requires s != []
    ensures s[0] == c ==> Split(s, [c]) == [[]] + Split(s[1..], [c])
    ensures s[0] != c ==> Split(s, [c]) == [[s[0]] + Split(s[1..], [c])[0]] + Split(s[1..], [c])[1..]
  {
    assert s[..1] == [s[0]];
  }

  /** Splitting on one character distributes over a separator occurrence. */
  lemma {:induction false} SplitAtChar(a: string, c: char, b: string)
    ensures Split(a + [c] + b, [c]) == Split(a, [c]) + Split(b, [c])
  {
    var s := a + [c] + b;
    var sb := Split(b, [c]);
    SplitCons(s, c);
    if a == [] {
      assert s[0] == c && s[1..] == b;
      assert Split(a, [c]) == [[]];
    } else {
      assert s[0] == a[0] && s[1..] == a[1..] + [c] + b;
      SplitAtChar(a[1..], c, b);
      SplitCons(a, c);
      var tail := Split(a[1..], [c]);
      assert Split(s[1..], [c]) == tail + sb;
      if a[0] == c {
        assert Split(s, [c]) == [[]] + (tail + sb);
        assert Split(a, [c]) == [[]] + tail;
        ConcatAssoc([[]], tail, sb);
      } else {
        var r := tail + sb;
        assert r[0] == tail[0] && r[1..] == tail[1..] + sb;
        assert Split(s, [c]) == [[a[0]] + tail[0]] + (tail[1..] + sb);
        assert Split(a, [c]) == [[a[0]] + tail[0]] + tail[1..];
        ConcatAssoc([[a[0]] + tail[0]], tail[1..], sb);
      }
    }
  }

  /** Repeated, leading and trailing slashes do not change a path's segments:
      every slash only separates. */
  lemma {:induction false} SegmentsAtSlash(a: string, b: string)
    ensures Segments(a + "/" + b) == Segments(a) + Segments(b)
  {
    SplitAtChar(a, '/', b);
    NonEmptyAppend(Split(a, "/"), Split(b, "/"));
  }

  lemma {:induction false} SegmentsTrailingSlash(p: string)
    ensures Segments(p + "/") == Segments(p)
  {
    SegmentsAtSlash(p, "");
    assert p + "/" + "" == p + "/";
    assert Segments("") == [];
  }

  lemma {:induction false} SegmentsDoubleSlash(a: string, b: string)
    ensures Segments(a + "//" + b) == Segments(a + "/" + b)
  {
    SegmentsAtSlash(a + "/", b);
    assert a + "/" + "/" + b == a + "//" + b;
    SegmentsTrailingSlash(a);
    SegmentsAtSlash(a, b);
  }

  /** A segment never contains a slash. */
  lemma {:induction false} SplitPiecesLackSeparator(s: string, c: char)
    ensures forall k, i :: 0 <= k < |Split(s, [c])| && 0 <= i < |Split(s, [c])[k]| ==> Split(s, [c])[k][i] != c
  {
    if |s| >= 1 {
      SplitPiecesLackSeparator(s[1..], c);
      if s[..1] == [c] {
      } else {
        assert s[0] != c;
      }
    }
  }

  lemma {:induction false} NonEmptyKeeps(pieces: seq<string>, c: char)
    requires forall k, i :: 0 <= k < |pieces| && 0 <= i < |pieces[k]| ==> pieces[k][i] != c
    ensures forall k, i :: 0 <= k < |NonEmpty(pieces)| && 0 <= i < |NonEmpty(pieces)[k]| ==> NonEmpty(pieces)[k][i] != c
  {
    if pieces != [] {
      NonEmptyKeeps(pieces[1..], c);
    }
  }

  lemma {:induction false} SegmentsLackSlash(path: string)
    ensures forall k, i :: 0 <= k < |Segments(path)| && 0 <= i < |Segments(path)[k]| ==> Segments(path)[k][i] != '/'
  {
    SplitPiecesLackSeparator(path, '/');
    NonEmptyKeeps(Split(path, "/"), '/');
  }

  /** The separator " / " is found exactly where it was put, when the first
      piece has no slash. */
  lemma {:induction false} SplitAfterSlashFreePiece(x: string, rest: string)
    requires forall i :: 0 <= i < |x| ==> x[i] != '/'
    ensures Split(x + " / " + rest, " / ") == [x] + Split(rest, " / ")
  {
    var s := x + " / " + rest;
    if x == [] {
      assert s[..3] == " / " && s[3..] == rest;
    } else {
      assert s[1] != '/';
      assert s[..3] != " / ";
      assert s[1..] == x[1..] + " / " + rest;
      SplitAfterSlashFreePiece(x[1..], rest);
      assert [s[0]] + x[1..] == x;
    }
  }

  lemma {:induction false} SplitSlashFree(x: string)
    requires forall i :: 0 <= i < |x| ==> x[i] != '/'
    ensures Split(x, " / ") == [x]
  {
    if |x| >= 3 {
      assert x[1] != '/';
      assert x[..3] != " / ";
      SplitSlashFree(x[1..]);
      assert [x[0]] + x[1..] == x;
    }
  }

  /** Joining slash-free pieces with " / " and splitting again gives the pieces
      back. */
  lemma {:induction false} SplitJoin(pieces: seq<string>)
    requires |pieces| >= 1
    requires forall k, i :: 0 <= k < |pieces| && 0 <= i < |pieces[k]| ==> pieces[k][i] != '/'
    ensures Split(Join(pieces, " / "), " / ") == pieces
  {
    if |pieces| == 1 {
      SplitSlashFree(pieces[0]);
    } else {
      SplitJoin(pieces[1..]);
      SplitAfterSlashFreePiece(pieces[0], Join(pieces[1..], " / "));
    }
  }

  // ---------------------------------------------------------------------------
  // Decimal numbers

  predicate IsDigit(c: char) { '0' <= c <= '9' }

  function DigitChar(d: nat): (c: char)
    requires d < 10
    ensures IsDigit(c)
  {
    "0123456789"[d]
  }

  function DigitValue(c: char): (d: nat)
    requires IsDigit(c)
    ensures d < 10
  {
    (c as int - '0' as int) as nat
  }

  lemma {:induction false} DigitRoundTrip(d: nat)
    requires d < 10
    ensures DigitValue(DigitChar(d)) == d
  {
  }

  predicate AllDigits(s: string)
  {
    forall i :: 0 <= i < |s| ==> IsDigit(s[i])
  }

  /** The value of a run of decimal digits, most significant first. */
  function DigitsValue(s: string): nat
    requires AllDigits(s)
  {
    if s == [] then 0
    else DigitsValue(s[..|s| - 1]) * 10 + DigitValue(s[|s| - 1])
  }

  /** `n.toString()` for a natural number: its shortest decimal spelling. */
  function ToDecimal(n: nat): (s: string)
    ensures |s| >= 1 && AllDigits(s)
    ensures |s| > 1 ==> s[0] != '0'
  {
    if n < 10 then [DigitChar(n)] else ToDecimal(n / 10) + [DigitChar(n % 10)]
  }

  lemma {:induction false} ToDecimalValue(n: nat)
    ensures DigitsValue(ToDecimal(n)) == n
  {
    var s := ToDecimal(n);
    if n < 10 {
      DigitRoundTrip(n);
    } else {
      ToDecimalValue(n / 10);
      assert s[..|s| - 1] == ToDecimal(n / 10);
      DigitRoundTrip(n % 10);
    }
  }

  /** The number of digits of `n.toString()`. */
  lemma {:induction false} ToDecimalLength(n: nat)
    ensures n < 10 ==> |ToDecimal(n)| == 1
    ensures 10 <= n < 100 ==> |ToDecimal(n)| == 2
    ensures n >= 100 ==> |ToDecimal(n)| >= 3
  {
    if n >= 10 {
      ToDecimalLength(n / 10);
    }
  }

  /** Leading zeros do not change a digit run's value. */
  lemma {:induction false} LeadingZero(s: string)
    requires AllDigits(s)
    ensures AllDigits("0" + s) && DigitsValue("0" + s) == DigitsValue(s)
  {
    var t := "0" + s;
    if s != [] {
      assert t[..|t| - 1] == "0" + s[..|s| - 1];
      LeadingZero(s[..|s| - 1]);
    }
  }

  /** `s.padStart(2, '0')`. */
  function PadStart2(s: string): (r: string)
    ensures |r| == if |s| < 2 then 2 else |s|
    ensures r[|r| - |s|..] == s
    ensures forall i :: 0 <= i < |r| - |s| ==> r[i] == '0'
  {
    if |s| == 0 then "00" else if |s| == 1 then "0" + s else s
  }

  lemma {:induction false} PadStart2Value(s: string)
    requires AllDigits(s)
    ensures AllDigits(PadStart2(s)) && DigitsValue(PadStart2(s)) == DigitsValue(s)
  {
    if |s| == 1 {
      LeadingZero(s);
    } else if |s| == 0 {
      LeadingZero("0");
      LeadingZero("");
    }
  }

  // ---------------------------------------------------------------------------
  // parseInt

  /** The white space `parseInt` skips before a number (the ASCII part of it). */
  predicate IsSpace(c: char)
  {
    c == ' ' || c == '\t' || c == '\n' || c == '\r' || c == '\U{000B}' || c == '\U{000C}'
  }

  function TrimStart(s: string): (r: string)
    ensures |r| <= |s| && r == s[|s| - |r|..]
    ensures r == [] || !IsSpace(r[0])
  {
    if s != [] && IsSpace(s[0]) then TrimStart(s[1..]) else s
  }

  /** The longest prefix of `s` made of digits. */
  function DigitPrefix(s: string): (p: string)
    ensures AllDigits(p) && p <= s
    ensures |p| < |s| ==> !IsDigit(s[|p|])
  {
    if s != [] && IsDigit(s[0]) then [s[0]] + DigitPrefix(s[1..]) else []
  }

  /** The value of the digits a number starts with, if any. */
  function ParseUnsigned(u: string): (r: Option<nat>)
  {
    var digits := DigitPrefix(u);
    if digits == [] then None else Some(DigitsValue(digits))
  }

  /** A number with an optional sign in front. */
  function ParseSigned(t: string): (r: Option<int>)
  {
    if t != [] && t[0] == '-' then
      match ParseUnsigned(t[1..])
      case None => None
      case Some(m) => Some(-(m as int))
    else if t != [] && t[0] == '+' then
      match ParseUnsigned(t[1..])
      case None => None
      case Some(m) => Some(m)
    else
      match ParseUnsigned(t)
      case None => None
      case Some(m) => Some(m)
  }

  /** `parseInt(s)` with the default radix, for strings without a "0x"
      prefix: `None` stands for `NaN`. */
  function ParseInt(s: string): (r: Option<int>)
  {
    ParseSigned(TrimStart(s))
  }

  /** `String(v)` for an integer. */
  function IntToString(v: int): (s: string)
    ensures |s| >= 1
  {
    if v < 0 then "-" + ToDecimal(-v) else ToDecimal(v)
  }

  lemma {:induction false} DigitPrefixOfDigits(s: string, rest: string)
    requires AllDigits(s)
    requires rest == [] || !IsDigit(rest[0])
    ensures DigitPrefix(s + rest) == s
  {
    if s != [] {
      assert (s + rest)[1..] == s[1..] + rest;
      DigitPrefixOfDigits(s[1..], rest);
    } else {
      assert s + rest == rest;
    }
  }

  lemma {:induction false} ParseUnsignedOfDigits(d: string, rest: string)
    requires d != [] && AllDigits(d)
    requires rest == [] || !IsDigit(rest[0])
    ensures ParseUnsigned(d + rest) == Some(DigitsValue(d))
  {
    DigitPrefixOfDigits(d, rest);
  }

  lemma {:induction false} TrimStartUnchanged(s: string)
    requires s != [] && IsDigit(s[0])
    ensures TrimStart(s) == s
  {
  }

  lemma {:induction false} ParseSignedDigitFirst(t: string)
    requires t != [] && IsDigit(t[0])
    ensures ParseSigned(t) == match ParseUnsigned(t) case None => None case Some(m) => Some(m as int)
  {
  }

  lemma {:induction false} ParseIntOfDigits(d: string, rest: string)
    requires d != [] && AllDigits(d)
    requires rest == [] || !IsDigit(rest[0])
    ensures ParseInt(d + rest) == Some(DigitsValue(d) as int)
  {
    var s := d + rest;
    assert s[0] == d[0] && IsDigit(d[0]);
    TrimStartUnchanged(s);
    ParseSignedDigitFirst(s);
    ParseUnsignedOfDigits(d, rest);
  }

  lemma {:induction false} ParseSignedMinus(t: string)
    requires t != [] && t[0] == '-'
    ensures TrimStart(t) == t
    ensures ParseSigned(t) == match ParseUnsigned(t[1..]) case None => None case Some(m) => Some(-(m as int))
  {
  }

  lemma {:induction false} ParseIntOfNegated(d: string, rest: string)
    requires d != [] && AllDigits(d)
    requires rest == [] || !IsDigit(rest[0])
    ensures ParseInt("-" + d + rest) == Some(-(DigitsValue(d) as int))
  {
    var t := "-" + d + rest;
    assert t[0] == '-' && t[1..] == d + rest;
    ParseSignedMinus(t);
    ParseUnsignedOfDigits(d, rest);
  }

  /** `parseInt` reads back what `String` wrote, and stops at the first
      character that is not a digit. */
  lemma {:induction false} ParseIntToString(v: int, rest: string)
    requires rest == [] || !IsDigit(rest[0])
    ensures ParseInt(IntToString(v) + rest) == Some(v)
  {
    var m: nat := if v < 0 then -v else v;
    ToDecimalValue(m);
    if v < 0 {
      ParseIntOfNegated(ToDecimal(m), rest);
    } else {
      ParseIntOfDigits(ToDecimal(m), rest);
    }
  }

  // ---------------------------------------------------------------------------
  // Case

  /** `toUpperCase` on one character, for the ASCII letters. */
  function ToUpper(c: char): (u: char)
    ensures 'a' <= c <= 'z' ==> 'A' <= u <= 'Z' && u as int == c as int - 32
    ensures !('a' <= c <= 'z') ==> u == c
  {
    if 'a' <= c <= 'z' then (c as int - 32) as char else c
  }

  /** `p.charAt(0).toUpperCase() + p.slice(1)`. */
  function Capitalize(p: string): (r: string)
    ensures |r| == |p|
    ensures p != [] ==> r[0] == ToUpper(p[0]) && r[1..] == p[1..]
  {
    if p == [] then [] else [ToUpper(p[0])] + p[1..]
  }
}
