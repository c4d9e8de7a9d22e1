/** Small building blocks shared by the server model: an optional value, the
    whitespace trimming that JavaScript's `String.prototype.trim` performs,
    ASCII lower-casing, the decimal rendering of a number used as a property
    key, and the `Math.floor(Math.random() * list.length)` pick. */
module Common {

  datatype Option<T> = None | Some(value: T) {
    function GetOr(default: T): T {
      match this
      case Some(v) => v
      case None => default
    }
  }

  /** A request field that holds a string, judged the way JavaScript judges
      truthiness: absent and the empty string are both falsy. */
  predicate Truthy(o: Option<string>) {
    o.Some? && o.value != ""
  }

  /** `c[k]` is the first truthy candidate. */
  predicate FirstTruthyAt(c: seq<Option<string>>, k: int) {
    0 <= k < |c| && Truthy(c[k]) && forall j :: 0 <= j < k ==> !Truthy(c[j])
  }

  /** `a || b || c || ...` over optional strings. */
  function FirstTruthy(c: seq<Option<string>>): (r: Option<string>)
    ensures r.Some? <==> exists k :: 0 <= k < |c| && Truthy(c[k])
    ensures r.Some? ==> exists k :: FirstTruthyAt(c, k) && r.value == c[k].value
  {
    if c == [] then None
    else if Truthy(c[0]) then
      assert FirstTruthyAt(c, 0);
      c[0]
    else
      var r := FirstTruthy(c[1..]);
      assert forall k :: 1 <= k < |c| ==> c[k] == c[1..][k - 1];
      if r.Some? then
        var k :| FirstTruthyAt(c[1..], k) && r.value == c[1..][k].value;
        assert FirstTruthyAt(c, k + 1);
        r
      else
        r
  }

  // ---------------------------------------------------------------------
  // Inherited properties

  /** The properties every plain object inherits from `Object.prototype`.
      The server's stores are plain `{}` objects, so `store[t]` finds one of these
      when `t` is not an own key: a function, or for `__proto__` the
      prototype object itself. Either is truthy. */
  const InheritedNames: set<string> := {
    "constructor", "__proto__", "__defineGetter__", "__defineSetter__",
    "__lookupGetter__", "__lookupSetter__", "hasOwnProperty", "isPrototypeOf",
    "propertyIsEnumerable", "toLocaleString", "toString", "valueOf"}

  /** The `name` property of an inherited value: the function's own name
      (`Object` for the constructor), and `undefined` for the prototype
      object that `__proto__` yields. */
  function InheritedName(property: string): (r: Option<string>)
    requires property in InheritedNames
    ensures r.None? <==> property == "__proto__"
  {
    if property == "__proto__" then None
    else if property == "constructor" then Some("Object")
    else Some(property)
  }

  /** `String(undefined)`: the key `obj[undefined]` reads and writes. */
  const UndefinedKey: string := "undefined"

  /** A JSON request-body field that may hold a number or a string (the
      `perkId` of the redemption endpoints). */
  datatype BodyValue = Missing | Num(n: int) | Text(s: string)

  /** JavaScript truthiness of a body field: absent, `0` and `""` are falsy. */
  predicate BodyTruthy(v: BodyValue) {
    match v
    case Missing => false
    case Num(n) => n != 0
    case Text(s) => s != ""
  }

  /** The property key a body value names when used as `obj[value]`. */
  function BodyKey(v: BodyValue): string {
    match v
    case Missing => UndefinedKey
    case Num(n) => IntToString(n)
    case Text(s) => s
  }

  function Max(a: int, b: int): int {
    if a >= b then a else b
  }

  function Min(a: int, b: int): int {
    if a <= b then a else b
  }

  // ---------------------------------------------------------------------
  // Whitespace and trimming

  /** The characters JavaScript's `trim` removes: the WhiteSpace and
      LineTerminator productions of section 12.2 and 12.3 of ECMA-262. */
  predicate IsJsWhitespace(c: char) {
    || c == '\t' || c == '\n' || c == '\U{0B}' || c == '\U{0C}' || c == '\r'
    || c == ' ' || c == '\U{A0}' || c == '\U{1680}'
    || ('\U{2000}' <= c <= '\U{200A}')
    || c == '\U{2028}' || c == '\U{2029}' || c == '\U{202F}'
    || c == '\U{205F}' || c == '\U{3000}' || c == '\U{FEFF}'
  }

  /** No whitespace at either end. */
  predicate IsTrimmed(s: string) {
    s == [] || (!IsJsWhitespace(s[0]) && !IsJsWhitespace(s[|s| - 1]))
  }

  /** Drops leading whitespace: the result is a suffix of `s`, everything
      dropped is whitespace, and what is left does not start with whitespace. */
  function TrimStart(s: string): (r: string)
    ensures |r| <= |s| && r == s[|s| - |r|..]
    ensures forall k :: 0 <= k < |s| - |r| ==> IsJsWhitespace(s[k])
    ensures r == [] || !IsJsWhitespace(r[0])
  {
    if |s| > 0 && IsJsWhitespace(s[0]) then TrimStart(s[1..]) else s
  }

  /** Drops trailing whitespace: the result is a prefix of `s`, everything
      dropped is whitespace, and what is left does not end with whitespace. */
  function TrimEnd(s: string): (r: string)
    ensures |r| <= |s| && r == s[..|r|]
    ensures forall k :: |r| <= k < |s| ==> IsJsWhitespace(s[k])
    ensures r == [] || !IsJsWhitespace(r[|r| - 1])
  {
    if |s| > 0 && IsJsWhitespace(s[|s| - 1]) then TrimEnd(s[..|s| - 1]) else s
  }

  /** `r` sits in `s` at offset `i` with only whitespace before and after it. */
  predicate Surrounds(s: string, i: int, r: string) {
    && 0 <= i <= i + |r| <= |s| && r == s[i..i + |r|]
    && (forall k :: 0 <= k < i ==> IsJsWhitespace(s[k]))
    && (forall k :: i + |r| <= k < |s| ==> IsJsWhitespace(s[k]))
  }

  /** `s.trim()`: the infix left after removing whitespace at both ends;
      only whitespace lies outside it and it is itself trimmed. */
  function Trim(s: string): (r: string)
    ensures IsTrimmed(r)
    ensures exists i :: Surrounds(s, i, r)
  {
    var t := TrimStart(s);
    var r := TrimEnd(t);
    var i := |s| - |t|;
    assert Surrounds(s, i, r);
    assert IsTrimmed(r) by {
      if r != [] {
        assert r[0] == t[0];
      }
    }
    r
  }

  lemma {:induction false} TrimStartOfNonWhitespace(s: string)
    requires s == [] || !IsJsWhitespace(s[0])
    ensures TrimStart(s) == s
  {
  }

  /** Trimming a string that has no whitespace at either end leaves it as it is. */
  lemma TrimOfTrimmed(s: string)
    requires IsTrimmed(s)
    ensures Trim(s) == s
  {
    TrimStartOfNonWhitespace(s);
  }

  /** Trimming twice is trimming once. */
  lemma TrimIdempotent(s: string)
    ensures Trim(Trim(s)) == Trim(s)
  {
    TrimOfTrimmed(Trim(s));
  }

  // ---------------------------------------------------------------------
  // Lower-casing

  function LowerChar(c: char): char {
    if 'A' <= c <= 'Z' then (c as int + 32) as char else c
  }

  /** `s.toLowerCase()` restricted to ASCII letters. */
  function Lower(s: string): (r: string)
    ensures |r| == |s|
    ensures forall k :: 0 <= k < |s| ==> r[k] == LowerChar(s[k])
  {
    seq(|s|, k requires 0 <= k < |s| => LowerChar(s[k]))
  }

  predicate IsLower(s: string) {
    forall k :: 0 <= k < |s| ==> !('A' <= s[k] <= 'Z')
  }

  lemma LowerIdempotent(s: string)
    ensures IsLower(Lower(s))
    ensures Lower(Lower(s)) == Lower(s)
  {
  }

  lemma LowerOfLower(s: string)
    requires IsLower(s)
    ensures Lower(s) == s
  {
  }

  // ---------------------------------------------------------------------
  // Decimal rendering (JavaScript's property-key coercion of a number)

  function DigitChar(d: nat): (c: char)
    requires d < 10
    ensures '0' <= c <= '9' && c as int - '0' as int == d
  {
    ('0' as int + d) as char
  }

  predicate IsDigits(s: string) {
    forall k :: 0 <= k < |s| ==> '0' <= s[k] <= '9'
  }

  /** `String(n)` for a natural number: its decimal digits, most significant
      first, with no leading zero. */
  function NatToString(n: nat): (r: string)
    ensures |r| >= 1 && IsDigits(r)
    ensures r[0] == '0' ==> n == 0
    decreases n
  {
    if n < 10 then [DigitChar(n)] else NatToString(n / 10) + [DigitChar(n % 10)]
  }

  /** The value of a string of decimal digits. */
  function DigitsValue(s: string): (v: nat)
    requires IsDigits(s)
  {
    if s == [] then 0
    else DigitsValue(s[..|s| - 1]) * 10 + (s[|s| - 1] as int - '0' as int)
  }

  /** Reading back the rendering of `n` gives `n`. */
  lemma {:induction false} DigitsValueOfNatToString(n: nat)
    ensures DigitsValue(NatToString(n)) == n
    decreases n
  {
    if n >= 10 {
      var p := NatToString(n / 10);
      var r := NatToString(n);
      assert r[..|r| - 1] == p;
      DigitsValueOfNatToString(n / 10);
    }
  }

  /** Distinct numbers render as distinct keys. */
  lemma NatToStringInjective(a: nat, b: nat)
    ensures NatToString(a) == NatToString(b) ==> a == b
  {
    DigitsValueOfNatToString(a);
    DigitsValueOfNatToString(b);
  }

  /** `String(n)` for any integer. */
  function IntToString(n: int): (r: string)
    ensures |r| >= 1
    ensures n >= 0 ==> r == NatToString(n)
    ensures n < 0 ==> r[0] == '-'
  {
    if n < 0 then "-" + NatToString(-n) else NatToString(n)
  }

  /** The rendering of a number ends in a digit and every inherited name in
      a letter or `_`, so no number names an inherited property. */
  lemma IntToStringNotInherited(n: int)
    ensures IntToString(n) !in InheritedNames
  {
    var r := IntToString(n);
    assert IsDigits(NatToString(if n < 0 then -n else n));
    assert '0' <= r[|r| - 1] <= '9';
  }

  lemma IntToStringInjective(a: int, b: int)
    ensures IntToString(a) == IntToString(b) ==> a == b
  {
    if IntToString(a) == IntToString(b) {
      if a < 0 && b < 0 {
        assert NatToString(-a) == IntToString(a)[1..];
        NatToStringInjective(-a, -b);
      } else if a >= 0 && b >= 0 {
        NatToStringInjective(a, b);
      }
    }
  }

  // ---------------------------------------------------------------------
  // Random picks

  /** `Math.floor(roll * n)` for a draw `roll` in [0, 1). */
  function FloorIndex(roll: real, n: nat): (k: nat)
    requires 0.0 <= roll < 1.0 && n > 0
    ensures k < n
  {
    var x := roll * n as real;
    assert 0.0 <= x < n as real by {
      assert x <= roll * n as real;
      assert (1.0 - roll) * n as real > 0.0;
    }
    x.Floor
  }

  /** `list[Math.floor(roll * list.length)]`. */
  function Pick<T>(list: seq<T>, roll: real): (r: T)
    requires |list| > 0 && 0.0 <= roll < 1.0
    ensures r in list
  {
    list[FloorIndex(roll, |list|)]
  }
}
