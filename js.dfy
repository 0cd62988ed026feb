// JavaScript values and the handful of language operations the writer's
// stores and records rely on: truthiness, `typeof`, strict and loose
// equality, `String(v)`, `parseInt`, `Number(v)`, the JSON round trip that
// localForage writes go through, and `Array.prototype.filter`.
//
// Numbers are modelled as exact reals (no rounding, no infinities, no -0)
// plus NaN.

module Js {

  datatype Option<T> = None | Some(value: T)

  datatype Number = Finite(r: real) | NaN

  datatype Value =
    | Undefined
    | Null
    | Bool(b: bool)
    | Num(n: Number)
    | Str(s: string)
    | Arr(elems: seq<Value>)
    | Obj(fields: map<string, Value>)

  /** The JS number `i`. */
  function Int(i: int): Value
  {
    Num(Finite(i as real))
  }

  /** `v !== undefined && v !== null` */
  predicate IsSet(v: Value)
  {
    !v.Undefined? && !v.Null?
  }

  /** Property read `data.name` on a plain object: a missing property reads as undefined. */
  function Get(data: map<string, Value>, name: string): Value
  {
    if name in data then data[name] else Undefined
  }

  /** The named properties of a value that passed `typeof v === 'object' && v !== null`
    * (an array has none of the record fields the records read). */
  function Fields(v: Value): map<string, Value>
  {
    if v.Obj? then v.fields else map[]
  }

  /** `typeof v === 'object' && v !== null` */
  predicate IsObjectLike(v: Value)
  {
    v.Obj? || v.Arr?
  }

  /** The own enumerable properties `for (key in v)` visits on an object or array. */
  function Entries(v: Value): map<string, Value>
  {
    match v
    case Obj(m) => m
    case Arr(e) => IndexEntries(e)
    case _ => map[]
  }

  /** An array's elements keyed by their index strings. */
  function IndexEntries(e: seq<Value>): map<string, Value>
  {
    NatToStringInjective();
    map i | 0 <= i < |e| :: NatToString(i) := e[i]
  }

  /** `Object.keys(v).length`; None when `Object.keys` throws (null or undefined). */
  function KeyCount(v: Value): Option<nat>
  {
    match v
    case Undefined => None
    case Null => None
    case Obj(m) => Some(|m|)
    case Arr(e) => Some(|e|)
    case Str(s) => Some(|s|)
    case _ => Some(0)
  }

  /** `!!v` */
  predicate Truthy(v: Value)
  {
    match v
    case Undefined => false
    case Null => false
    case Bool(b) => b
    case Num(n) => n.Finite? && n.r != 0.0
    case Str(s) => s != ""
    case Arr(_) => true
    case Obj(_) => true
  }

  /** `typeof v` */
  function TypeOf(v: Value): string
  {
    match v
    case Undefined => "undefined"
    case Null => "object"
    case Bool(_) => "boolean"
    case Num(_) => "number"
    case Str(_) => "string"
    case Arr(_) => "object"
    case Obj(_) => "object"
  }

  /** Two arrays or objects in the model are always distinct references. */
  predicate IsReference(v: Value)
  {
    v.Arr? || v.Obj?
  }

  /** `a === b` for numbers: NaN equals nothing. */
  predicate NumberStrictEq(a: Number, b: Number)
  {
    a.Finite? && b.Finite? && a.r == b.r
  }

  /** `a === b` */
  predicate StrictEq(a: Value, b: Value)
  {
    match (a, b)
    case (Undefined, Undefined) => true
    case (Null, Null) => true
    case (Bool(x), Bool(y)) => x == y
    case (Num(x), Num(y)) => NumberStrictEq(x, y)
    case (Str(x), Str(y)) => x == y
    case _ => false
  }

  /** SameValueZero, the comparison of `Array.prototype.includes`: NaN equals NaN. */
  predicate SameValueZero(a: Value, b: Value)
  {
    StrictEq(a, b) || (a == Num(NaN) && b == Num(NaN))
  }

  /** `list.includes(v)` */
  predicate Includes(list: seq<Value>, v: Value)
  {
    exists i :: 0 <= i < |list| && SameValueZero(list[i], v)
  }

  /** `a < b` and `a <= b` on numbers: false whenever NaN is involved. */
  predicate NumberLess(a: Number, b: Number)
  {
    a.Finite? && b.Finite? && a.r < b.r
  }

  predicate NumberLessEq(a: Number, b: Number)
  {
    a.Finite? && b.Finite? && a.r <= b.r
  }

  // ---------------------------------------------------------------------
  // Decimal rendering

  function DigitChar(d: nat): char
    requires d < 10
  {
    "0123456789"[d]
  }

  function NatToString(n: nat): (s: string)
    ensures |s| > 0
    decreases n
  {
    if n < 10 then [DigitChar(n)] else NatToString(n / 10) + [DigitChar(n % 10)]
  }

  function IntToString(i: int): string
  {
    if i < 0 then "-" + NatToString(-i) else NatToString(i)
  }

  /** Up to `fuel` decimals of a fraction in [0, 1), stopping when it is exhausted. */
  function FractionDigits(f: real, fuel: nat): string
    decreases fuel
  {
    if fuel == 0 || f <= 0.0 then ""
    else
      var d := (f * 10.0).Floor;
      if 0 <= d < 10 then [DigitChar(d)] + FractionDigits(f * 10.0 - d as real, fuel - 1)
      else ""
  }

  predicate IsIntegral(r: real)
  {
    r.Floor as real == r
  }

  /** NaN or an integral number, as `parseInt` and `Date.now` produce. */
  predicate IsWhole(n: Number)
  {
    n.NaN? || IsIntegral(n.r)
  }

  /** `String(n)`. A non-integral number is printed with at most 20 decimals. */
  function NumberToString(n: Number): string
  {
    match n
    case NaN => "NaN"
    case Finite(r) =>
      if IsIntegral(r) then IntToString(r.Floor)
      else
        var a := if r < 0.0 then -r else r;
        (if r < 0.0 then "-" else "") + NatToString(a.Floor) + "." + FractionDigits(a - a.Floor as real, 20)
  }

  function Join(elems: seq<Value>): string
    decreases elems, 0
  {
    if |elems| == 0 then ""
    else
      var first := if IsSet(elems[0]) then ToStr(elems[0]) else "";
      if |elems| == 1 then first else first + "," + Join(elems[1..])
  }

  /** `String(v)`; an array joins its elements with commas, null and undefined elements printing empty. */
  function ToStr(v: Value): string
    decreases v, 1
  {
    match v
    case Undefined => "undefined"
    case Null => "null"
    case Bool(b) => if b then "true" else "false"
    case Num(n) => NumberToString(n)
    case Str(s) => s
    case Arr(e) => Join(e)
    case Obj(_) => "[object Object]"
  }

  // ---------------------------------------------------------------------
  // parseInt

  /** The characters of `\s` (white space and line terminators). */
  predicate IsWhitespace(c: char)
  {
    c == ' ' || c == '\t' || c == '\n' || c == '\r' || c == '\U{0B}' || c == '\U{0C}' ||
    c == '\U{A0}' || c == '\U{FEFF}' || c == '\U{1680}' || ('\U{2000}' <= c <= '\U{200A}') ||
    c == '\U{2028}' || c == '\U{2029}' || c == '\U{202F}' || c == '\U{205F}' || c == '\U{3000}'
  }

  function TrimStart(s: string): (t: string)
    ensures |t| <= |s|
  {
    if |s| > 0 && IsWhitespace(s[0]) then TrimStart(s[1..]) else s
  }

  function TrimEnd(s: string): (t: string)
    ensures |t| <= |s|
  {
    if |s| > 0 && IsWhitespace(s[|s| - 1]) then TrimEnd(s[..|s| - 1]) else s
  }

  predicate IsDigit(c: char)
  {
    '0' <= c <= '9'
  }

  /** The value of a digit in base 16, or -1. */
  function HexValue(c: char): int
  {
    if '0' <= c <= '9' then c as int - '0' as int
    else if 'a' <= c <= 'f' then c as int - 'a' as int + 10
    else if 'A' <= c <= 'F' then c as int - 'A' as int + 10
    else -1
  }

  /** Length of the longest prefix of digits valid in `radix` (10 or 16). */
  function DigitPrefix(s: string, radix: int): (n: nat)
    ensures n <= |s|
  {
    if |s| > 0 && 0 <= HexValue(s[0]) < radix then 1 + DigitPrefix(s[1..], radix) else 0
  }

  /** The value of a string of digits, most significant first. */
  function DigitsValue(s: string, radix: int): int
  {
    if |s| == 0 then 0
    else radix * DigitsValue(s[..|s| - 1], radix) + HexValue(s[|s| - 1])
  }

  predicate HasHexPrefix(s: string)
  {
    |s| >= 2 && s[0] == '0' && (s[1] == 'x' || s[1] == 'X')
  }

  /** `parseInt(s)` without a radix: leading whitespace, an optional sign, an optional
    * `0x` prefix, then the longest run of digits; no digit at all gives NaN. */
  function ParseIntString(s: string): (r: Number)
    ensures IsWhole(r)
  {
    var t := TrimStart(s);
    var negative := |t| > 0 && t[0] == '-';
    var u := if |t| > 0 && (t[0] == '-' || t[0] == '+') then t[1..] else t;
    var radix := if HasHexPrefix(u) then 16 else 10;
    var body := if radix == 16 then u[2..] else u;
    var n := DigitPrefix(body, radix);
    if n == 0 then NaN
    else
      var m := DigitsValue(body[..n], radix);
      Finite((if negative then -m else m) as real)
  }

  /** `parseInt(v)` converts its argument to a string first. */
  function ParseInt(v: Value): (r: Number)
    ensures IsWhole(r)
  {
    ParseIntString(ToStr(v))
  }

  // ---------------------------------------------------------------------
  // Number(v)

  /** `Number(s)` for a string: surrounding whitespace is ignored, the empty string is 0,
    * otherwise a decimal literal with optional sign and fraction, or an unsigned `0x` literal.
    * Exponents and `Infinity` read as NaN in this model. */
  function StringToNumber(s: string): Number
  {
    var t := TrimEnd(TrimStart(s));
    if |t| == 0 then Finite(0.0)
    else if HasHexPrefix(t) then
      var body := t[2..];
      if |body| > 0 && DigitPrefix(body, 16) == |body| then Finite(DigitsValue(body, 16) as real) else NaN
    else
      var negative := t[0] == '-';
      var u := if t[0] == '-' || t[0] == '+' then t[1..] else t;
      var n := DigitPrefix(u, 10);
      var rest := u[n..];
      if |rest| == 0 then
        (if n == 0 then NaN else Finite((if negative then -DigitsValue(u, 10) else DigitsValue(u, 10)) as real))
      else if rest[0] == '.' && DigitPrefix(rest[1..], 10) == |rest| - 1 && (n > 0 || |rest| > 1) then
        var frac := rest[1..];
        var magnitude := DigitsValue(u[..n], 10) as real + DigitsValue(frac, 10) as real / Pow10(|frac|) as real;
        Finite(if negative then -magnitude else magnitude)
      else NaN
  }

  function Pow10(k: nat): (p: nat)
    ensures p > 0
  {
    if k == 0 then 1 else 10 * Pow10(k - 1)
  }

  /** `Number(v)`: objects and arrays go through their string form. */
  function ToNumber(v: Value): Number
  {
    match v
    case Undefined => NaN
    case Null => Finite(0.0)
    case Bool(b) => Finite(if b then 1.0 else 0.0)
    case Num(n) => n
    case Str(s) => StringToNumber(s)
    case Arr(_) => StringToNumber(ToStr(v))
    case Obj(_) => NaN
  }

  /** How far a value is from a primitive number or string, for `==`'s conversions. */
  function CoercionRank(v: Value): nat
  {
    if v.Arr? || v.Obj? then 2 else if v.Bool? then 1 else 0
  }

  /** `a == b` (the abstract equality comparison). */
  predicate LooseEq(a: Value, b: Value)
    decreases CoercionRank(a) + CoercionRank(b)
  {
    if (a.Undefined? || a.Null?) && (b.Undefined? || b.Null?) then true
    else if a.Undefined? || a.Null? || b.Undefined? || b.Null? then false
    else if IsReference(a) && IsReference(b) then false
    else if a.Bool? then LooseEq(Num(ToNumber(a)), b)
    else if b.Bool? then LooseEq(a, Num(ToNumber(b)))
    else if IsReference(a) then LooseEq(Str(ToStr(a)), b)
    else if IsReference(b) then LooseEq(a, Str(ToStr(b)))
    else if a.Num? && b.Str? then NumberStrictEq(a.n, StringToNumber(b.s))
    else if a.Str? && b.Num? then NumberStrictEq(StringToNumber(a.s), b.n)
    else StrictEq(a, b)
  }

  // ---------------------------------------------------------------------
  // JSON round trip

  /** `JSON.parse(JSON.stringify(v))` for a value that is not itself undefined:
    * NaN becomes null, undefined properties are dropped, undefined array elements become null. */
  function JsonCopy(v: Value): Value
    decreases v
  {
    match v
    case Undefined => Null
    case Null => Null
    case Bool(b) => v
    case Num(n) => if n.NaN? then Null else v
    case Str(s) => v
    case Arr(e) => Arr(seq(|e|, i requires 0 <= i < |e| => JsonCopy(e[i])))
    case Obj(m) => Obj(map k | k in m && !m[k].Undefined? :: JsonCopy(m[k]))
  }

  /** A value that JSON carries over unchanged: no NaN and no undefined anywhere. */
  predicate JsonSafe(v: Value)
    decreases v
  {
    match v
    case Undefined => false
    case Num(n) => !n.NaN?
    case Arr(e) => forall i :: 0 <= i < |e| ==> JsonSafe(e[i])
    case Obj(m) => forall k :: k in m ==> JsonSafe(m[k])
    case _ => true
  }

  /** What a storage `setItem` keeps of a value: undefined is stored as null. */
  function Persisted(v: Value): Value
  {
    if v.Undefined? then Null else v
  }

  // ---------------------------------------------------------------------
  // The key index of a storage

  /** The key index as stored: `JSON.stringify(keys)` read back. */
  function Index(keys: seq<string>): Value
  {
    Arr(seq(|keys|, i requires 0 <= i < |keys| => Str(keys[i])))
  }

  lemma IndexIsJson(keys: seq<string>)
    ensures Index(keys) == JsonCopy(Index(keys))
  {
    var a := Index(keys);
    assert JsonSafe(a) by {
      assert forall i :: 0 <= i < |a.elems| ==> a.elems[i] == Str(keys[i]);
    }
    JsonCopyOfSafe(a);
  }

  /** The keys a stored index yields; only an array of strings is read as an index. */
  function IndexKeys(v: Value): (keys: seq<string>)
    ensures v.Arr? && (forall i :: 0 <= i < |v.elems| ==> v.elems[i].Str?) ==>
      |keys| == |v.elems| && forall i :: 0 <= i < |keys| ==> Str(keys[i]) == v.elems[i]
  {
    if v.Arr? && forall i :: 0 <= i < |v.elems| ==> v.elems[i].Str? then
      seq(|v.elems|, i requires 0 <= i < |v.elems| => v.elems[i].s)
    else []
  }

  /** The index a store's `loadFromStorage` finds under "keys"; none stored reads as no keys. */
  function StoredKeys(storage: map<string, Value>): seq<string>
  {
    if "keys" in storage then IndexKeys(storage["keys"]) else []
  }

  /** A stored key index reads back as the keys written. */
  lemma IndexRoundTrip(keys: seq<string>)
    ensures IndexKeys(Index(keys)) == keys
  {
  }

  // ---------------------------------------------------------------------
  // Array.prototype.filter

  function Filter<T(!new)>(s: seq<T>, p: T -> bool): (r: seq<T>)
    ensures |r| <= |s|
    ensures forall x :: x in r <==> x in s && p(x)
  {
    if |s| == 0 then [] else (if p(s[0]) then [s[0]] else []) + Filter(s[1..], p)
  }

  predicate NoDuplicates<T(==)>(s: seq<T>)
  {
    forall i, j :: 0 <= i < j < |s| ==> s[i] != s[j]
  }

  // ---------------------------------------------------------------------
  // Sequences and maps

  /** A prefix one longer is the prefix with the next element appended. */
  lemma TakeOneMore<T>(s: seq<T>, i: int)
    requires 0 <= i < |s|
    ensures s[..i + 1] == s[..i] + [s[i]]
  {
  }

  /** Two maps with the same keys and the same value under each are equal. */
  lemma SameEntries<V>(a: map<string, V>, b: map<string, V>)
    requires forall k :: k in a <==> k in b
    requires forall k :: k in a ==> a[k] == b[k]
    ensures a == b
  {
  }

  /** Every entry of `a` is an entry of `b`. */
  predicate SubMap<V(==)>(a: map<string, V>, b: map<string, V>)
  {
    forall k :: k in a ==> k in b && a[k] == b[k]
  }

  /** The elements `for (const x of v)` visits: the elements of an array, the characters of a
    * string; no other value is iterable, and the loop throws a TypeError before its first step. */
  function Iterated(v: Value): (r: Option<seq<Value>>)
    ensures r.Some? <==> v.Arr? || v.Str?
    ensures v.Arr? ==> r == Some(v.elems)
    ensures v.Str? ==> r.Some? && |r.value| == |v.s| && forall i :: 0 <= i < |v.s| ==> r.value[i] == Str([v.s[i]])
  {
    match v
    case Arr(e) => Some(e)
    case Str(s) => Some(seq(|s|, i requires 0 <= i < |s| => Str([s[i]])))
    case _ => None
  }

  /** How far a loop that builds a record from each element gets: the record classes take
    * `data = {}`, so undefined stands for an empty object, and their `setData` reads a property
    * of the data, which throws on the first null element. */
  function FirstNull(items: seq<Value>): (n: nat)
    ensures n <= |items|
    ensures forall i :: 0 <= i < n ==> items[i] != Null
    ensures n < |items| ==> items[n] == Null
  {
    if items == [] || items[0] == Null then 0 else 1 + FirstNull(items[1..])
  }

  /** Whether such a loop over `v` runs to its end. */
  predicate IteratesFully(v: Value)
  {
    Iterated(v).Some? && FirstNull(Iterated(v).value) == |Iterated(v).value|
  }

  /** The plain data of the records such a loop over `v` builds before it ends or throws: the
    * properties of each element visited, none for a value that is not iterable. */
  function RecordData(v: Value): (r: seq<map<string, Value>>)
    ensures Iterated(v).None? ==> r == []
    ensures Iterated(v).Some? ==>
      |r| == FirstNull(Iterated(v).value) && |r| <= |Iterated(v).value| &&
      forall i :: 0 <= i < |r| ==> r[i] == Fields(Iterated(v).value[i])
  {
    if Iterated(v).None? then []
    else
      var items := Iterated(v).value;
      seq(FirstNull(items), i requires 0 <= i < FirstNull(items) => Fields(items[i]))
  }

  /** JSON's array of objects, the form the backend sends its lists in. */
  function ObjectArray(ms: seq<map<string, Value>>): (v: Value)
    ensures v.Arr? && |v.elems| == |ms| && forall i :: 0 <= i < |ms| ==> v.elems[i] == Obj(ms[i])
  {
    Arr(seq(|ms|, i requires 0 <= i < |ms| => Obj(ms[i])))
  }

  /** A loop runs to its end exactly over the elements before the first null one. */
  lemma {:induction false} FirstNullOfNonNull(items: seq<Value>)
    ensures FirstNull(items) == |items| <==> Null !in items
  {
    if items != [] && items[0] != Null {
      FirstNullOfNonNull(items[1..]);
      assert items == [items[0]] + items[1..];
    }
  }

  /** An array of objects is visited to its end, and each record gets the properties of its
    * object. */
  lemma ObjectArrayIterates(ms: seq<map<string, Value>>)
    ensures IteratesFully(ObjectArray(ms)) && RecordData(ObjectArray(ms)) == ms
  {
    var items := ObjectArray(ms).elems;
    assert Null !in items by {
      forall i | 0 <= i < |items| ensures items[i] != Null {}
    }
    FirstNullOfNonNull(items);
  }

  /** A null element ends such a loop before it; a value that is neither an array nor a string
    * gives no record and throws. */
  lemma StopsAtNull(v: Value, i: nat)
    requires v.Arr? && i < |v.elems| && v.elems[i] == Null
    ensures !IteratesFully(v) && |RecordData(v)| <= i
    ensures forall w: Value :: !(w.Arr? || w.Str?) ==> !IteratesFully(w) && RecordData(w) == []
  {
  }

  /** Updating a merged map updates its right-hand side. */
  lemma MergeUpdate<V>(m: map<string, V>, a: map<string, V>, k: string, v: V)
    ensures (m + a)[k := v] == m + a[k := v]
  {
  }

  // ---------------------------------------------------------------------
  // Properties

  lemma {:induction false} NatToStringDigits(n: nat)
    ensures forall k :: 0 <= k < |NatToString(n)| ==> IsDigit(NatToString(n)[k])
    decreases n
  {
    if n >= 10 {
      NatToStringDigits(n / 10);
    }
  }

  lemma {:induction false} DigitPrefixOfDigits(s: string)
    requires forall k :: 0 <= k < |s| ==> IsDigit(s[k])
    ensures DigitPrefix(s, 10) == |s|
  {
    if |s| > 0 {
      DigitPrefixOfDigits(s[1..]);
    }
  }

  lemma {:induction false} DigitsValueOfNatToString(n: nat)
    ensures DigitsValue(NatToString(n), 10) == n
    decreases n
  {
    var s := NatToString(n);
    if n >= 10 {
      DigitsValueOfNatToString(n / 10);
      assert s[..|s| - 1] == NatToString(n / 10);
    }
  }

  /** `parseInt(String(i)) === i` for every integer `i`. */
  lemma ParseIntOfIntToString(i: int)
    ensures ParseIntString(IntToString(i)) == Finite(i as real)
  {
    var a := if i < 0 then -i else i;
    var d := NatToString(a);
    NatToStringDigits(a);
    DigitPrefixOfDigits(d);
    DigitsValueOfNatToString(a);
    assert d[..|d|] == d;
    if i < 0 {
      var t := IntToString(i);
      assert t[1..] == d;
    }
  }

  /** `String(i)` has no surrounding whitespace, and is not a hexadecimal literal. */
  lemma IntToStringPlain(i: int)
    ensures TrimEnd(TrimStart(IntToString(i))) == IntToString(i)
    ensures !HasHexPrefix(IntToString(i))
  {
    var a := if i < 0 then -i else i;
    var d := NatToString(a);
    NatToStringDigits(a);
    var s := IntToString(i);
    assert s == if i < 0 then "-" + d else d;
    assert !IsWhitespace(s[0]) && !IsWhitespace(s[|s| - 1]);
    assert |s| >= 2 ==> IsDigit(s[1]);
  }

  /** `Number(String(i)) === i` for every integer `i`. */
  lemma StringToNumberOfIntToString(i: int)
    ensures StringToNumber(IntToString(i)) == Finite(i as real)
  {
    var a := if i < 0 then -i else i;
    var d := NatToString(a);
    NatToStringDigits(a);
    DigitPrefixOfDigits(d);
    DigitsValueOfNatToString(a);
    IntToStringPlain(i);
    var s := IntToString(i);
    var u := if s[0] == '-' || s[0] == '+' then s[1..] else s;
    assert u == d;
    assert u[DigitPrefix(u, 10)..] == [];
  }

  /** Reading back a number written with `String` gives the number. */
  lemma ParseIntOfInt(i: int)
    ensures ParseInt(Int(i)) == Finite(i as real)
  {
    assert (i as real).Floor == i;
    ParseIntOfIntToString(i);
  }

  /** `parseInt` reads back a number it produced. */
  lemma {:induction false} ReadWhole(n: Number)
    requires IsWhole(n)
    ensures ParseInt(Num(n)) == n
  {
    if n.Finite? {
      ParseIntOfInt(n.r.Floor);
      assert Num(n) == Int(n.r.Floor);
    }
  }

  lemma NatToStringInjective()
    ensures forall a: nat, b: nat :: NatToString(a) == NatToString(b) ==> a == b
  {
    forall a: nat, b: nat | NatToString(a) == NatToString(b)
      ensures a == b
    {
      assert IntToString(a) == NatToString(a) && IntToString(b) == NatToString(b);
      ParseIntOfIntToString(a);
      ParseIntOfIntToString(b);
    }
  }

  /** Distinct integers print differently. */
  lemma IntToStringInjective(i: int, j: int)
    ensures IntToString(i) == IntToString(j) ==> i == j
  {
    ParseIntOfIntToString(i);
    ParseIntOfIntToString(j);
  }

  /** A string that begins and ends with a lower-case letter does not read as a number. */
  lemma WordIsNaN(s: string)
    requires |s| > 0 && 'a' <= s[0] <= 'z' && 'a' <= s[|s| - 1] <= 'z'
    ensures StringToNumber(s).NaN?
  {
    assert TrimStart(s) == s;
    assert TrimEnd(s) == s;
    assert DigitPrefix(s, 10) == 0;
  }

  /** A value is loosely equal to a string that does not read as a number only when it is that
    * string or an array or object whose string form it is. */
  lemma LooseEqNonNumeric(v: Value, s: string)
    requires StringToNumber(s).NaN?
    ensures LooseEq(v, Str(s)) ==> (v.Str? && v.s == s) || (IsReference(v) && ToStr(v) == s)
  {
    match v
    case Bool(b) =>
      assert LooseEq(v, Str(s)) == LooseEq(Num(ToNumber(v)), Str(s));
    case Arr(_) =>
      assert LooseEq(v, Str(s)) == LooseEq(Str(ToStr(v)), Str(s));
    case Obj(_) =>
      assert LooseEq(v, Str(s)) == LooseEq(Str(ToStr(v)), Str(s));
    case _ =>
  }

  /** JSON carries a value without NaN or undefined over unchanged. */
  lemma {:induction false} JsonCopyOfSafe(v: Value)
    requires JsonSafe(v)
    ensures JsonCopy(v) == v
    decreases v
  {
    match v
    case Arr(e) =>
      forall i | 0 <= i < |e| {
        JsonCopyOfSafe(e[i]);
      }
    case Obj(m) =>
      forall k | k in m {
        JsonCopyOfSafe(m[k]);
      }
      var c := map k | k in m && !m[k].Undefined? :: JsonCopy(m[k]);
      assert c == m;
    case _ =>
  }

  /** What JSON produces is itself JSON safe, so a second round trip changes nothing. */
  lemma {:induction false} JsonCopySafe(v: Value)
    ensures JsonSafe(JsonCopy(v))
    decreases v
  {
    match v
    case Arr(e) =>
      forall i | 0 <= i < |e| {
        JsonCopySafe(e[i]);
      }
    case Obj(m) =>
      forall k | k in m && !m[k].Undefined? {
        JsonCopySafe(m[k]);
      }
    case _ =>
  }

  lemma JsonCopyIdempotent(v: Value)
    ensures JsonCopy(JsonCopy(v)) == JsonCopy(v)
  {
    JsonCopySafe(v);
    JsonCopyOfSafe(JsonCopy(v));
  }
}
