/** JSON values as the converter receives them from `json.load`, and the
    facts about a tree of key/value pairs that both document walks rely on. */
module JsonValue {

  /** A parsed JSON value. An object keeps its fields in the dictionary's
      insertion order, which is the order `dict.items()` visits them. */
  datatype Json =
    | Null
    | Bool(b: bool)
    | Int(i: int)                // a JSON number without fraction or exponent
    | Float(x: real)             // any other finite JSON number
    | NaN                        // `NaN`, which `json.load` accepts
    | Infinity(negative: bool)   // `Infinity` and `-Infinity`, likewise
    | Str(s: string)
    | Arr(items: seq<Json>)
    | Obj(fields: seq<(string, Json)>)

  type Fields = seq<(string, Json)>

  datatype Option<T> = None | Some(value: T)

  /** Python's truth value of a JSON value (`if not json_data`): the falsy
      values are `None`, `False`, zero, and the empty string, list and dict. */
  function Truthy(v: Json): (r: bool)
    ensures !r <==> v == Null || v == Bool(false) || v == Int(0) || v == Float(0.0)
                    || v == Str("") || v == Arr([]) || v == Obj([])
  {
    match v
    case Null => false
    case Bool(b) => b
    case Int(i) => i != 0
    case Float(x) => x != 0.0
    case NaN => true
    case Infinity(_) => true
    case Str(s) => s != ""
    case Arr(items) => items != []
    case Obj(fields) => fields != []
  }

  /** `d.get(k)`: the value of the first field named `k`, if any. */
  function Lookup(fields: Fields, k: string): (r: Option<Json>)
    ensures r.None? <==> forall i :: 0 <= i < |fields| ==> fields[i].0 != k
    ensures r.Some? ==> exists i :: 0 <= i < |fields| && fields[i] == (k, r.value)
                                    && forall j :: 0 <= j < i ==> fields[j].0 != k
  {
    if fields == [] then None
    else if fields[0].0 == k then Some(fields[0].1)
    else
      var r := Lookup(fields[1..], k);
      if r.Some? then
        ghost var i :| 0 <= i < |fields[1..]| && fields[1..][i] == (k, r.value)
                       && forall j :: 0 <= j < i ==> fields[1..][j].0 != k;
        assert fields[i + 1] == (k, r.value);
        assert forall j :: 1 <= j < i + 1 ==> fields[j].0 == fields[1..][j - 1].0;
        r
      else
        assert forall i :: 1 <= i < |fields| ==> fields[i].0 == fields[1..][i - 1].0;
        r
  }

  /** `k in d` */
  predicate HasKey(fields: Fields, k: string) {
    Lookup(fields, k).Some?
  }

  /** Python's `str(v)` for the values whose rendering is fixed by the
      language: a string is itself, `None`, `True` and `False` are their
      names, an int is its decimal digits, and the special floats are
      `nan`, `inf` and `-inf`. Other floats, lists and dictionaries are
      rendered by `stringify`, which the model leaves unspecified. */
  function Show(v: Json, stringify: Json -> string): (r: string)
    ensures v.Str? ==> r == v.s
    ensures v.Null? ==> r == "None"
    ensures v.Bool? ==> r == (if v.b then "True" else "False")
    ensures v.Int? ==> r == IntText(v.i)
    ensures v.NaN? ==> r == "nan"
    ensures v.Infinity? ==> r == (if v.negative then "-inf" else "inf")
  {
    match v
    case Str(s) => s
    case Null => "None"
    case Bool(b) => if b then "True" else "False"
    case Int(i) => IntText(i)
    case NaN => "nan"
    case Infinity(negative) => if negative then "-inf" else "inf"
    case _ => stringify(v)
  }

  /** `str(i)` for an int: a '-' exactly when `i` is negative, then the
      decimal digits of its magnitude, without a leading zero unless the
      int is zero, which is "0". */
  function IntText(i: int): (r: string)
    ensures |r| >= 1 && (r[0] == '-' <==> i < 0)
    ensures var ds := if i < 0 then r[1..] else r;
            |ds| >= 1 && Digits(ds) && (ds[0] == '0' <==> i == 0)
            && DigitsValue(ds) == (if i < 0 then -i else i)
    ensures i == 0 ==> r == "0"
  {
    var ds := Decimal(if i < 0 then -i else i);
    DecimalRoundTrip(if i < 0 then -i else i);
    assert ("-" + ds)[1..] == ds;
    if i < 0 then "-" + ds else ds
  }

  /** Every character is a decimal digit. */
  predicate Digits(s: string) {
    forall k :: 0 <= k < |s| ==> '0' <= s[k] <= '9'
  }

  function Digit(d: nat): char
    requires d < 10
  {
    ('0' as int + d) as char
  }

  /** `str(n)` for an int `n >= 0`: its decimal digits, without leading
      zeros. */
  function Decimal(n: nat): (r: string)
    ensures |r| >= 1 && (r[0] == '0' <==> n == 0)
    ensures Digits(r)
    decreases n
  {
    if n < 10 then [Digit(n)] else Decimal(n / 10) + [Digit(n % 10)]
  }

  /** The number a string of decimal digits stands for. */
  function DigitsValue(s: string): int {
    if s == [] then 0 else 10 * DigitsValue(s[..|s| - 1]) + (s[|s| - 1] as int - '0' as int)
  }

  /** Reading back the digits of `n` gives `n`. */
  lemma {:induction false} DecimalRoundTrip(n: nat)
    ensures DigitsValue(Decimal(n)) == n
    decreases n
  {
    if n >= 10 {
      DecimalRoundTrip(n / 10);
      var r := Decimal(n);
      assert r[..|r| - 1] == Decimal(n / 10);
    }
  }

  /** Every key of the tree in preorder and dictionary order, each with its
      depth; the keys of `fields` itself are at depth `depth`. */
  function Keys(fields: Fields, depth: int): seq<(string, int)>
    decreases fields
  {
    if fields == [] then []
    else
      var v := fields[0].1;
      assert v < fields[0];
      [(fields[0].0, depth)]
        + (if v.Obj? then Keys(v.fields, depth + 1) else [])
        + Keys(fields[1..], depth)
  }

  /** The number of keys in the tree, counted level by level. */
  function KeyCount(fields: Fields): nat
    decreases fields
  {
    if fields == [] then 0
    else
      var v := fields[0].1;
      assert v < fields[0];
      1 + (if v.Obj? then KeyCount(v.fields) else 0) + KeyCount(fields[1..])
  }

  /** The number of keys whose value is not an object. */
  function LeafCount(fields: Fields): nat
    decreases fields
  {
    if fields == [] then 0
    else
      var v := fields[0].1;
      assert v < fields[0];
      (if v.Obj? then LeafCount(v.fields) else 1) + LeafCount(fields[1..])
  }

  function Max(a: int, b: int): int {
    if a < b then b else a
  }

  /** The number of nested levels of keys: 0 for an empty object, 1 for an
      object without object values. */
  function Height(fields: Fields): nat
    decreases fields
  {
    if fields == [] then 0
    else
      var v := fields[0].1;
      assert v < fields[0];
      Max(1 + (if v.Obj? then Height(v.fields) else 0), Height(fields[1..]))
  }

  lemma HeightZero(fields: Fields)
    ensures Height(fields) == 0 <==> fields == []
  {
  }

  lemma HeightStep(fields: Fields)
    requires fields != []
    ensures Height(fields)
            == Max(1 + (if fields[0].1.Obj? then Height(fields[0].1.fields) else 0), Height(fields[1..]))
  {
  }

  /** `s` with every depth moved by `e`. */
  function Shift(s: seq<(string, int)>, e: int): (r: seq<(string, int)>)
    ensures |r| == |s|
    ensures forall i :: 0 <= i < |s| ==> r[i] == (s[i].0, s[i].1 + e)
  {
    seq(|s|, i requires 0 <= i < |s| => (s[i].0, s[i].1 + e))
  }

  lemma {:induction false} KeysConcat(a: Fields, b: Fields, depth: int)
    ensures Keys(a + b, depth) == Keys(a, depth) + Keys(b, depth)
    decreases a
  {
    if a == [] {
      assert a + b == b;
    } else {
      assert (a + b)[0] == a[0];
      assert (a + b)[1..] == a[1..] + b;
      KeysConcat(a[1..], b, depth);
    }
  }

  /** The preorder lists exactly as many entries as the tree has keys. */
  lemma {:induction false} KeysLength(fields: Fields, depth: int)
    ensures |Keys(fields, depth)| == KeyCount(fields)
    decreases fields
  {
    if fields != [] {
      var v := fields[0].1;
      assert v < fields[0];
      if v.Obj? {
        KeysLength(v.fields, depth + 1);
      }
      KeysLength(fields[1..], depth);
    }
  }

  lemma ShiftConcat(a: seq<(string, int)>, b: seq<(string, int)>, e: int)
    ensures Shift(a + b, e) == Shift(a, e) + Shift(b, e)
  {
    assert forall i :: 0 <= i < |a + b| ==> Shift(a + b, e)[i] == (Shift(a, e) + Shift(b, e))[i];
  }

  /** Starting the walk `e` levels deeper moves every depth by `e` and
      changes nothing else. */
  lemma {:induction false} KeysShift(fields: Fields, depth: int, e: int)
    ensures Keys(fields, depth + e) == Shift(Keys(fields, depth), e)
    decreases fields
  {
    if fields != [] {
      var k, v := fields[0].0, fields[0].1;
      assert v < fields[0];
      var rest := Keys(fields[1..], depth);
      KeysShift(fields[1..], depth, e);
      if v.Obj? {
        var child := Keys(v.fields, depth + 1);
        KeysShift(v.fields, depth + 1, e);
        assert Keys(fields, depth) == [(k, depth)] + child + rest;
        assert Shift([(k, depth)], e) == [(k, depth + e)];
        ShiftConcat([(k, depth)] + child, rest, e);
        ShiftConcat([(k, depth)], child, e);
        assert Keys(v.fields, depth + e + 1) == Shift(child, e);
        assert Keys(fields, depth + e) == [(k, depth + e)] + Keys(v.fields, depth + e + 1) + Keys(fields[1..], depth + e);
      } else {
        assert Keys(fields, depth) == [(k, depth)] + rest;
        assert Shift([(k, depth)], e) == [(k, depth + e)];
        ShiftConcat([(k, depth)], rest, e);
        assert Keys(fields, depth + e) == [(k, depth + e)] + Keys(fields[1..], depth + e);
      }
    }
  }

  /** Every depth in the preorder lies between the starting depth and the
      deepest level of the tree. */
  lemma {:induction false} KeysDepthBounds(fields: Fields, depth: int)
    ensures forall i :: 0 <= i < |Keys(fields, depth)| ==>
              depth <= Keys(fields, depth)[i].1 < depth + Height(fields)
    decreases fields
  {
    if fields != [] {
      var v := fields[0].1;
      assert v < fields[0];
      if v.Obj? {
        KeysDepthBounds(v.fields, depth + 1);
      }
      KeysDepthBounds(fields[1..], depth);
    }
  }

  /** Appending three sequences does not depend on how they are grouped. */
  lemma Regrouped<T>(a: seq<T>, b: seq<T>, c: seq<T>)
    ensures (a + b) + c == a + (b + c)
  {
  }

  /** The elements after a prefix are those of the rest, shifted. */
  lemma AfterPrefix<T>(a: seq<T>, b: seq<T>)
    ensures forall i :: |a| <= i < |a + b| ==> (a + b)[i] == b[i - |a|]
  {
  }

  /** An element of the middle part of three appended sequences. */
  lemma ElementOfMiddle<T>(a: seq<T>, b: seq<T>, c: seq<T>, k: nat)
    requires k < |b|
    ensures |a| + k < |a + b + c| && (a + b + c)[|a| + k] == b[k]
  {
  }
}
