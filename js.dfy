/** The JavaScript runtime values and built-in operations that the server's
    request handlers and the dashboard page lean on: the values a parsed JSON
    request body can hold, truthiness, Number(...), String(...), trim, slice,
    split(" ") and the template-literal rendering of a number.

    Number parsing, number printing and date parsing are floating-point and
    calendar algorithms; they are not modelled but taken as parameters (the
    `Runtime` record), so every property proved here holds whatever they do. */
module Js {

  datatype Option<T> = None | Some(value: T)

  datatype Result<T, E> = Ok(value: T) | Err(error: E)

  /** A JavaScript number: a finite value, NaN, or one of the two infinities. */
  datatype Num = Finite(r: real) | NaN | Infinity(negative: bool)

  /** A value of a parsed JSON request body, or `undefined` for a key that is
      absent. `Composite` stands for an array or an object and carries the
      text String(...) gives for it (for an array, its elements joined by
      commas; for a plain object, "[object Object]"). */
  datatype JsValue =
    | Undefined
    | Null
    | Bool(b: bool)
    | Num(x: real)
    | Str(s: string)
    | Composite(text: string)

  /** The algorithms of the JavaScript engine that are not modelled. */
  datatype Runtime = Runtime(
    parseNumber: string -> Num,     // StringToNumber on a trimmed, non-empty string
    numberText: real -> string,     // Number.prototype.toString of a finite number
    parseDate: JsValue -> Option<int>, // new Date(v).getTime(); None when it is NaN
    isoDate: string -> Option<string>  // new Date(s).toISOString(); None when it throws
  )

  /** A request body: a JSON object. */
  type Body = map<string, JsValue>

  /** The value under `key`: undefined when the key is absent. */
  function Get(body: Body, key: string): (v: JsValue)
    ensures key !in body ==> v == Undefined
    ensures key in body ==> v == body[key]
  {
    if key in body then body[key] else Undefined
  }

  /** JavaScript truthiness. */
  predicate Truthy(v: JsValue)
  {
    match v
    case Undefined => false
    case Null => false
    case Bool(b) => b
    case Num(x) => x != 0.0
    case Str(s) => s != ""
    case Composite(_) => true
  }

  /** The white-space and line-terminator characters that String.prototype.trim
      and StringToNumber strip. */
  predicate IsSpace(c: char)
  {
    c == '\t' || c == '\n' || c == '\U{000B}' || c == '\U{000C}' || c == '\r' || c == ' '
    || c == '\U{00A0}' || c == '\U{1680}' || ('\U{2000}' <= c <= '\U{200A}')
    || c == '\U{2028}' || c == '\U{2029}' || c == '\U{202F}' || c == '\U{205F}'
    || c == '\U{3000}' || c == '\U{FEFF}'
  }

  predicate Blank(s: string)
  {
    forall i :: 0 <= i < |s| ==> IsSpace(s[i])
  }

  /** The characters of `s` from `lo` up to `hi` are all white space. */
  predicate BlankBetween(s: string, lo: nat, hi: nat)
    requires lo <= hi <= |s|
  {
    forall i :: lo <= i < hi ==> IsSpace(s[i])
  }

  /** Where the leading white space of `s[i..]` ends. */
  function SkipSpaces(s: string, i: nat): (k: nat)
    requires i <= |s|
    ensures i <= k <= |s| && BlankBetween(s, i, k)
    ensures k == |s| || !IsSpace(s[k])
    decreases |s| - i
  {
    if i < |s| && IsSpace(s[i]) then SkipSpaces(s, i + 1) else i
  }

  /** Where the trailing white space of `s[lo..hi]` starts. */
  function BackSpaces(s: string, lo: nat, hi: nat): (k: nat)
    requires lo <= hi <= |s|
    ensures lo <= k <= hi && BlankBetween(s, k, hi)
    ensures k == lo || !IsSpace(s[k - 1])
  {
    if lo < hi && IsSpace(s[hi - 1]) then BackSpaces(s, lo, hi - 1) else hi
  }

  /** String.prototype.trim: the slice of the string between its leading and
      its trailing white space. It is empty exactly when the string is blank,
      and otherwise starts and ends with a character that is not white
      space. */
  function Trim(s: string): (r: string)
    ensures |r| <= |s|
    ensures var a := SkipSpaces(s, 0); a + |r| <= |s| && r == s[a..a + |r|]
    ensures r == "" || (!IsSpace(r[0]) && !IsSpace(r[|r| - 1]))
    ensures r == "" <==> Blank(s)
    ensures var a := SkipSpaces(s, 0);
              a + |r| <= |s| && BlankBetween(s, 0, a) && BlankBetween(s, a + |r|, |s|)
  {
    var a := SkipSpaces(s, 0);
    var b := BackSpaces(s, a, |s|);
    assert a < b ==> !IsSpace(s[a]);
    assert a == b ==> forall i :: 0 <= i < |s| ==> IsSpace(s[i]) by {
      if a == b {
        assert BlankBetween(s, 0, a) && BlankBetween(s, a, |s|);
      }
    }
    s[a..b]
  }

  /** String.prototype.slice(0, n): the first n characters, or the whole
      string when it is shorter. */
  function Slice(s: string, n: nat): (r: string)
    ensures |r| <= n && |r| <= |s|
    ensures r == s[..|r|]
    ensures |s| <= n ==> r == s
    ensures n < |s| ==> |r| == n
  {
    if |s| <= n then s else s[..n]
  }

  /** Number(v): the ToNumber conversion. A string is trimmed first; a blank
      string is 0; any other string goes to the engine's numeric parser. An
      array or object converts through its String(...) text. */
  function ToNumber(rt: Runtime, v: JsValue): (n: Num)
    ensures v == Undefined ==> n == NaN
    ensures v == Null || v == Bool(false) ==> n == Finite(0.0)
    ensures v == Bool(true) ==> n == Finite(1.0)
    ensures v.Num? ==> n == Finite(v.x)
    ensures v.Str? && Blank(v.s) ==> n == Finite(0.0)
    ensures v.Str? && !Blank(v.s) ==> n == rt.parseNumber(Trim(v.s))
    ensures v.Composite? ==> n == StringToNumber(rt, v.text)
  {
    match v
    case Undefined => NaN
    case Null => Finite(0.0)
    case Bool(b) => Finite(if b then 1.0 else 0.0)
    case Num(x) => Finite(x)
    case Str(s) => StringToNumber(rt, s)
    case Composite(text) => StringToNumber(rt, text)
  }

  /** Number(s) for a string: blank (only white space) is 0, anything else is
      trimmed and parsed. */
  function StringToNumber(rt: Runtime, s: string): (n: Num)
    ensures Blank(s) ==> n == Finite(0.0)
    ensures !Blank(s) ==> n == rt.parseNumber(Trim(s))
  {
    var t := Trim(s);
    if t == "" then Finite(0.0) else rt.parseNumber(t)
  }

  /** String(v), which is also what a template literal renders for v. */
  function ToText(rt: Runtime, v: JsValue): (t: string)
    ensures v.Str? ==> t == v.s
  {
    match v
    case Undefined => "undefined"
    case Null => "null"
    case Bool(b) => if b then "true" else "false"
    case Num(x) => rt.numberText(x)
    case Str(s) => s
    case Composite(text) => text
  }

  /** String.prototype.split(" "): the fields between single spaces. */
  function Split(s: string): (fields: seq<string>)
    ensures |fields| >= 1
  {
    if s == "" then [""]
    else if s[0] == ' ' then [""] + Split(s[1..])
    else
      var rest := Split(s[1..]);
      [[s[0]] + rest[0]] + rest[1..]
  }

  /** Array.prototype.join(" "), the inverse of Split. */
  function Join(fields: seq<string>): string
    requires |fields| >= 1
  {
    if |fields| == 1 then fields[0] else fields[0] + " " + Join(fields[1..])
  }

  /** Split cuts at every space and loses nothing: no field holds a space,
      and joining the fields with spaces gives the string back. */
  lemma {:induction false} SplitJoin(s: string)
    ensures Join(Split(s)) == s
    ensures forall i :: 0 <= i < |Split(s)| ==> ' ' !in Split(s)[i]
  {
    if s == "" {
    } else if s[0] == ' ' {
      SplitJoin(s[1..]);
      assert s == " " + s[1..];
    } else {
      SplitJoin(s[1..]);
      var rest := Split(s[1..]);
      if |rest| == 1 {
        assert s == [s[0]] + s[1..];
      } else {
        assert Join(rest) == rest[0] + " " + Join(rest[1..]);
        assert s == [s[0]] + s[1..];
        assert Split(s)[1..] == rest[1..];
      }
      forall i | 0 <= i < |Split(s)| ensures ' ' !in Split(s)[i] {
        if i > 0 {
          assert Split(s)[i] == rest[i];
        }
      }
    }
  }

  /** A string without spaces is a single field. */
  lemma {:induction false} SplitNoSpace(t: string)
    requires ' ' !in t
    ensures Split(t) == [t]
  {
    if t != "" {
      SplitNoSpace(t[1..]);
      assert [t[0]] + t[1..] == t;
    }
  }

  /** Characters before the first space extend the first field only. */
  lemma {:induction false} SplitPrefix(p: string, s: string)
    requires ' ' !in p
    ensures Split(p + s) == [p + Split(s)[0]] + Split(s)[1..]
  {
    if p != "" {
      SplitPrefix(p[1..], s);
      assert (p + s)[0] == p[0] && p[0] != ' ';
      assert (p + s)[1..] == p[1..] + s;
      var rest := Split(p[1..] + s);
      assert rest[0] == p[1..] + Split(s)[0];
      assert rest[1..] == Split(s)[1..];
      assert [p[0]] + (p[1..] + Split(s)[0]) == p + Split(s)[0];
    } else {
      assert p + s == s;
      assert p + Split(s)[0] == Split(s)[0];
      assert Split(s) == [Split(s)[0]] + Split(s)[1..];
    }
  }

  function Digit(d: nat): (c: char)
    requires d < 10
    ensures '0' <= c <= '9'
  {
    "0123456789"[d]
  }

  /** The decimal rendering of a non-negative integer. */
  function DecimalText(n: nat): (r: string)
    ensures r != ""
    ensures forall i :: 0 <= i < |r| ==> '0' <= r[i] <= '9'
  {
    if n < 10 then [Digit(n)] else DecimalText(n / 10) + [Digit(n % 10)]
  }

  /** The value of a string of decimal digits; the partner of DecimalText. */
  function DecimalValue(r: string): nat
    requires forall i :: 0 <= i < |r| ==> '0' <= r[i] <= '9'
  {
    if r == "" then 0 else 10 * DecimalValue(r[..|r| - 1]) + (r[|r| - 1] as int - '0' as int)
  }

  /** Reading the rendering back gives the number, so distinct numbers render
      as distinct strings. */
  lemma {:induction false} DecimalRoundTrip(n: nat)
    ensures DecimalValue(DecimalText(n)) == n
  {
    var r := DecimalText(n);
    if n < 10 {
      assert r[..|r| - 1] == "";
      assert "0123456789"[n] as int - '0' as int == n;
    } else {
      DecimalRoundTrip(n / 10);
      assert r[..|r| - 1] == DecimalText(n / 10);
      assert "0123456789"[n % 10] as int - '0' as int == n % 10;
    }
  }

  function LowerChar(c: char): char
  {
    if 'A' <= c <= 'Z' then (c as int - 'A' as int + 'a' as int) as char else c
  }

  /** String.prototype.toLowerCase, on the ASCII letters. */
  function ToLower(s: string): (r: string)
    ensures |r| == |s|
    ensures forall i :: 0 <= i < |s| ==> r[i] == LowerChar(s[i])
  {
    seq(|s|, i requires 0 <= i < |s| => LowerChar(s[i]))
  }
}
