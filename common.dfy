/** Values and text helpers shared by every part of the model: optional values,
    the loosely typed numbers that reach the server as JSON or as DECIMAL
    strings from the datastore, and the string normalisations the handlers use. */
module Common {

  datatype Option<T> = None | Some(value: T)

  /** A body field that `!== undefined` tells apart from `null`: `None` when
      the request leaves it out, `Some(None)` when it sends `null`. */
  predicate SentNull<T>(o: Option<Option<T>>)
  {
    o.Some? && o.value.None?
  }

  /** The value of a field sent with a value other than `null`. */
  function SentValue<T>(o: Option<Option<T>>): (r: Option<T>)
    ensures r.Some? <==> o.Some? && o.value.Some?
    ensures r.Some? ==> o == Some(r)
  {
    if o.Some? then o.value else None
  }

  /** A JavaScript number as far as the handlers care: NaN or a finite value. */
  datatype JsNum = NaN | Num(r: real)

  /** A loosely typed value as it arrives in a request body or a datastore row. */
  datatype JsValue =
    | Undefined
    | Null
    | Boolean(b: bool)
    | Number(n: JsNum)
    | Text(s: string)

  /** `Number(v)`: undefined is NaN, null is 0, booleans are 0/1, text is parsed. */
  function ToNumber(v: JsValue): (r: JsNum)
    ensures v.Number? ==> r == v.n
    ensures r.NaN? ==> v.Undefined? || v.Text? || v == Number(NaN)
    ensures v == Text("") ==> r == Num(0.0)
  {
    match v
    case Undefined => NaN
    case Null => Num(0.0)
    case Boolean(b) => Num(if b then 1.0 else 0.0)
    case Number(n) => n
    case Text(s) => ScanNumber(s, ScanStart)
  }

  /** JavaScript truthiness of a loose value. */
  predicate JsTruthy(v: JsValue)
  {
    match v
    case Undefined => false
    case Null => false
    case Boolean(b) => b
    case Number(n) => n.Num? && n.r != 0.0
    case Text(s) => s != ""
  }

  /** The reply of a handler that answers with a status and an error, or with a message. */
  datatype Reply = Failure(status: nat, error: string) | Success(message: string)

  /** `Number(v) || d`: the default replaces NaN and zero. */
  function NumberOr(v: JsValue, d: real): (r: real)
    ensures ToNumber(v).NaN? ==> r == d
    ensures ToNumber(v).Num? && ToNumber(v).r != 0.0 ==> r == ToNumber(v).r
    ensures ToNumber(v).Num? && ToNumber(v).r == 0.0 ==> r == d
  {
    match ToNumber(v)
    case NaN => d
    case Num(x) => if x == 0.0 then d else x
  }

  predicate IsDigit(c: char) { '0' <= c <= '9' }

  function DigitValue(c: char): nat
    requires IsDigit(c)
  {
    (c as int - '0' as int) as nat
  }

  predicate AllDigits(s: string)
  {
    forall k :: 0 <= k < |s| ==> IsDigit(s[k])
  }

  /** Value of a non-empty run of decimal digits. */
  function DigitsValue(s: string): nat
    requires AllDigits(s)
  {
    if s == [] then 0 else 10 * DigitsValue(s[..|s| - 1]) + DigitValue(s[|s| - 1])
  }

  /** Value of the digits after a decimal point (`.ddd`). */
  function FractionValue(s: string): real
    requires AllDigits(s)
  {
    if s == [] then 0.0
    else
      assert forall k :: 0 <= k < |s| - 1 ==> s[1..][k] == s[k + 1];
      (DigitValue(s[0]) as real + FractionValue(s[1..])) / 10.0
  }

  /** How far the conversion of a text to a number has got: the phase it is
      in, whether a minus sign was read, and the digits before and after the
      decimal point read so far. */
  datatype ScanPhase = Leading | Signed | Whole | Fraction | Trailing

  datatype NumberScan = NumberScan(phase: ScanPhase, negative: bool, whole: string, fraction: string)

  const ScanStart := NumberScan(Leading, false, [], [])

  /** The value of a finished scan: blank text is 0, a lone sign or a lone
      point is NaN, otherwise the digits read, negated after a minus sign. */
  function ScanResult(st: NumberScan): JsNum
    requires AllDigits(st.whole) && AllDigits(st.fraction)
  {
    match st.phase
    case Leading => Num(0.0)
    case Signed => NaN
    case _ =>
      if st.whole == [] && st.fraction == [] then NaN
      else
        var x := DigitsValue(st.whole) as real + FractionValue(st.fraction);
        Num(if st.negative then -x else x)
  }

  /** String-to-number conversion, one character at a time: blanks around
      the number, one optional sign, digits with at most one decimal point
      and at least one digit. Only plain decimal notation is recognised. */
  function ScanNumber(s: string, st: NumberScan): (r: JsNum)
    requires AllDigits(st.whole) && AllDigits(st.fraction)
    ensures st.phase == Leading && (forall k :: 0 <= k < |s| ==> IsSpace(s[k])) ==> r == Num(0.0)
    ensures st.phase == Trailing && !(forall k :: 0 <= k < |s| ==> IsSpace(s[k])) ==> r == NaN
    decreases |s|
  {
    if s == [] then ScanResult(st)
    else
      var c, rest := s[0], s[1..];
      assert forall k :: 0 <= k < |rest| ==> rest[k] == s[k + 1];
      match st.phase
      case Leading =>
        if IsSpace(c) then ScanNumber(rest, st)
        else if c == '-' || c == '+' then ScanNumber(rest, st.(phase := Signed, negative := c == '-'))
        else if IsDigit(c) then ScanNumber(rest, st.(phase := Whole, whole := [c]))
        else if c == '.' then ScanNumber(rest, st.(phase := Fraction))
        else NaN
      case Signed =>
        if IsDigit(c) then ScanNumber(rest, st.(phase := Whole, whole := [c]))
        else if c == '.' then ScanNumber(rest, st.(phase := Fraction))
        else NaN
      case Whole =>
        if IsDigit(c) then ScanNumber(rest, st.(whole := st.whole + [c]))
        else if c == '.' then ScanNumber(rest, st.(phase := Fraction))
        else if IsSpace(c) then ScanNumber(rest, st.(phase := Trailing))
        else NaN
      case Fraction =>
        if IsDigit(c) then ScanNumber(rest, st.(fraction := st.fraction + [c]))
        else if IsSpace(c) then ScanNumber(rest, st.(phase := Trailing))
        else NaN
      case Trailing =>
        if IsSpace(c) then ScanNumber(rest, st) else NaN
  }

  /** Digits read in the integer part are appended to it, whatever follows. */
  lemma {:induction false} ScanDigits(s: string, st: NumberScan)
    requires st.phase == Whole && AllDigits(st.whole) && AllDigits(st.fraction) && AllDigits(s)
    ensures AllDigits(st.whole + s)
    ensures ScanNumber(s, st) == ScanResult(st.(whole := st.whole + s))
  {
    if s == [] {
      assert st.whole + s == st.whole;
    } else {
      var next := st.(whole := st.whole + [s[0]]);
      assert AllDigits(s[1..]) by {
        forall k | 0 <= k < |s[1..]| ensures IsDigit(s[1..][k]) {
          assert s[1..][k] == s[k + 1];
        }
      }
      ScanDigits(s[1..], next);
      assert next.whole + s[1..] == st.whole + s;
    }
  }

  /** A run of digits converts to its decimal value, and with a leading
      minus sign to the negated value. */
  lemma DigitsToNumber(s: string)
    requires s != [] && AllDigits(s)
    ensures ToNumber(Text(s)) == Num(DigitsValue(s) as real)
    ensures ToNumber(Text("-" + s)) == Num(-(DigitsValue(s) as real))
  {
    var rest := s[1..];
    assert AllDigits(rest) by {
      forall k | 0 <= k < |rest| ensures IsDigit(rest[k]) {
        assert rest[k] == s[k + 1];
      }
    }
    assert [s[0]] + rest == s;
    assert IsDigit(s[0]) && !IsSpace(s[0]);
    var plain := NumberScan(Whole, false, [s[0]], []);
    assert ScanNumber(s, ScanStart) == ScanNumber(rest, plain);
    ScanDigits(rest, plain);
    var minus := "-" + s;
    assert minus[0] == '-' && minus[1..] == s;
    var signed := NumberScan(Signed, true, [], []);
    assert ScanNumber(minus, ScanStart) == ScanNumber(s, signed);
    var negative := NumberScan(Whole, true, [s[0]], []);
    assert ScanNumber(s, signed) == ScanNumber(rest, negative);
    ScanDigits(rest, negative);
  }

  /** A character the scanner can accept somewhere in a number. */
  predicate NumberChar(c: char)
  {
    IsSpace(c) || IsDigit(c) || c == '-' || c == '+' || c == '.'
  }

  /** Text holding a character the scanner never accepts converts to NaN,
      whatever the scan has read so far. */
  lemma {:induction false} ForeignCharIsNaN(s: string, st: NumberScan, k: nat)
    requires AllDigits(st.whole) && AllDigits(st.fraction)
    requires k < |s| && !NumberChar(s[k])
    ensures ScanNumber(s, st) == NaN
    decreases k
  {
    if k > 0 {
      var c, rest := s[0], s[1..];
      assert rest[k - 1] == s[k];
      match st.phase
      case Leading =>
        if IsSpace(c) {
          ForeignCharIsNaN(rest, st, k - 1);
        } else if c == '-' || c == '+' {
          ForeignCharIsNaN(rest, st.(phase := Signed, negative := c == '-'), k - 1);
        } else if IsDigit(c) {
          ForeignCharIsNaN(rest, st.(phase := Whole, whole := [c]), k - 1);
        } else if c == '.' {
          ForeignCharIsNaN(rest, st.(phase := Fraction), k - 1);
        }
      case Signed =>
        if IsDigit(c) {
          ForeignCharIsNaN(rest, st.(phase := Whole, whole := [c]), k - 1);
        } else if c == '.' {
          ForeignCharIsNaN(rest, st.(phase := Fraction), k - 1);
        }
      case Whole =>
        if IsDigit(c) {
          ForeignCharIsNaN(rest, st.(whole := st.whole + [c]), k - 1);
        } else if c == '.' {
          ForeignCharIsNaN(rest, st.(phase := Fraction), k - 1);
        } else if IsSpace(c) {
          ForeignCharIsNaN(rest, st.(phase := Trailing), k - 1);
        }
      case Fraction =>
        if IsDigit(c) {
          ForeignCharIsNaN(rest, st.(fraction := st.fraction + [c]), k - 1);
        } else if IsSpace(c) {
          ForeignCharIsNaN(rest, st.(phase := Trailing), k - 1);
        }
      case Trailing =>
        if IsSpace(c) {
          ForeignCharIsNaN(rest, st, k - 1);
        }
    }
  }

  /** JavaScript `truthy` for an optional text field: present and non-empty. */
  predicate Truthy(o: Option<string>)
  {
    o.Some? && o.value != ""
  }

  /** `x || null` for an optional number: zero and absence both become null. */
  function NumOrNull(o: Option<real>): (r: Option<real>)
    ensures r.Some? <==> o.Some? && o.value != 0.0
    ensures r.Some? ==> r == o
  {
    if o.Some? && o.value != 0.0 then o else None
  }

  /** `x || null` for an optional text. */
  function TextOrNull(o: Option<string>): (r: Option<string>)
    ensures r.Some? <==> Truthy(o)
    ensures r.Some? ==> r == o
  {
    if Truthy(o) then o else None
  }

  /** `x || d` for an optional number. */
  function NumOr(o: Option<real>, d: real): (r: real)
    ensures o.Some? && o.value != 0.0 ==> r == o.value
    ensures (o.None? || o.value == 0.0) ==> r == d
  {
    if o.Some? && o.value != 0.0 then o.value else d
  }

  /** `x || d` for an optional text. */
  function TextOr(o: Option<string>, d: string): (r: string)
    ensures Truthy(o) ==> r == o.value
    ensures !Truthy(o) ==> r == d
  {
    if Truthy(o) then o.value else d
  }

  function Max0(x: real): (r: real)
    ensures r >= 0.0 && r >= x
    ensures r == x || r == 0.0
  {
    if x > 0.0 then x else 0.0
  }

  function Min(a: real, b: real): (r: real)
    ensures r <= a && r <= b
    ensures r == a || r == b
  {
    if a <= b then a else b
  }

  // ----- text normalisation -----

  /** The characters `String.prototype.trim` and `Number` strip: the white
      space of section 12.2 of ECMA-262 (tab, vertical tab, form feed, space,
      no-break space, the byte-order mark and the other space separators of
      Unicode category Zs) and the line terminators of section 12.3 (line
      feed, carriage return, line and paragraph separators). */
  predicate IsSpace(c: char)
  {
    c == ' ' || c == '\t' || c == '\n' || c == '\r' || c == '\U{B}' || c == '\U{C}'
    || c == '\U{A0}' || c == '\U{FEFF}' || c == '\U{1680}' || '\U{2000}' <= c <= '\U{200A}'
    || c == '\U{2028}' || c == '\U{2029}' || c == '\U{202F}' || c == '\U{205F}' || c == '\U{3000}'
  }

  function TrimStart(s: string): (r: string)
    ensures |r| <= |s| && r == s[|s| - |r|..]
    ensures r == [] || !IsSpace(r[0])
    ensures forall k :: 0 <= k < |s| - |r| ==> IsSpace(s[k])
  {
    if s != [] && IsSpace(s[0]) then TrimStart(s[1..]) else s
  }

  function TrimEnd(s: string): (r: string)
    ensures |r| <= |s| && r == s[..|r|]
    ensures r == [] || !IsSpace(r[|r| - 1])
    ensures forall k :: |r| <= k < |s| ==> IsSpace(s[k])
  {
    if s != [] && IsSpace(s[|s| - 1]) then TrimEnd(s[..|s| - 1]) else s
  }

  /** `s.trim()`. */
  function Trim(s: string): (r: string)
    ensures r == [] || (!IsSpace(r[0]) && !IsSpace(r[|r| - 1]))
  {
    TrimEnd(TrimStart(s))
  }

  /** The capital letters the model folds: `A`–`Z` and the Latin-1 capitals
      `À`–`Þ` except the multiplication sign. */
  predicate IsUpper(c: char)
  {
    'A' <= c <= 'Z' || ('\U{C0}' <= c <= '\U{DE}' && c != '\U{D7}')
  }

  /** Each of those capitals lies 32 code points before its small letter. */
  function LowerChar(c: char): (d: char)
    ensures !IsUpper(d)
    ensures IsUpper(c) ==> d as int == c as int + 32
    ensures !IsUpper(c) ==> d == c
  {
    if IsUpper(c) then (c as int + 32) as char else c
  }

  /** `s.toLowerCase()`, for the ASCII and Latin-1 capitals (`IsUpper`). */
  function ToLower(s: string): (r: string)
    ensures |r| == |s|
    ensures forall k :: 0 <= k < |s| ==> r[k] == LowerChar(s[k])
  {
    seq(|s|, k requires 0 <= k < |s| => LowerChar(s[k]))
  }

  predicate IsLower(s: string)
  {
    forall k :: 0 <= k < |s| ==> !IsUpper(s[k])
  }

  /** `/^\d{4}$/.test(s)`: exactly four decimal digits. */
  predicate IsFourDigitPin(s: string)
  {
    |s| == 4 && AllDigits(s)
  }

  /** `s.startsWith(p)`. */
  predicate StartsWith(s: string, p: string)
  {
    |p| <= |s| && s[..|p|] == p
  }

  /** `xs.join(sep)`. */
  function Join(xs: seq<string>, sep: string): string
  {
    if xs == [] then ""
    else if |xs| == 1 then xs[0]
    else Join(xs[..|xs| - 1], sep) + sep + xs[|xs| - 1]
  }

  lemma ConcatAssoc<T>(a: seq<T>, b: seq<T>, c: seq<T>)
    ensures a + (b + c) == (a + b) + c
  {
  }

  /** One more element adds one separator and the element at the end. */
  lemma JoinAppend(xs: seq<string>, x: string, sep: string)
    requires xs != []
    ensures Join(xs + [x], sep) == Join(xs, sep) + sep + x
  {
    assert (xs + [x])[..|xs|] == xs;
  }

  function Sum(xs: seq<real>): real
  {
    if xs == [] then 0.0 else Sum(xs[..|xs| - 1]) + xs[|xs| - 1]
  }
}
