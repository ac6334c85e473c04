/** JSON values as `json.loads` returns them, one line of a JSONL file, and the
    two Python rules the processor leans on: truthiness (`if not record_id`)
    and set identity (`record_id in processed_ids`). */
module Json {

  datatype Option<+T> = None | Some(value: T)

  /** A decoded JSON value. Numbers are exact reals; NaN and the infinities
      that Python's decoder also accepts are not represented. */
  datatype Value =
    | Null
    | Bool(b: bool)
    | Num(x: real)
    | Str(s: string)
    | Arr(items: seq<Value>)
    | Obj(fields: map<string, Value>)

  /** A decoded JSON object, the shape of an input record and of a result. */
  type Record = map<string, Value>

  /** One line of a JSONL file: it decodes to a value, or `json.loads` raises
      `JSONDecodeError`. */
  datatype Line = Malformed | Parsed(value: Value)

  /** Python's `bool(v)` for a decoded JSON value. */
  predicate Truthy(v: Value) {
    match v
    case Null => false
    case Bool(b) => b
    case Num(x) => x != 0.0
    case Str(s) => s != []
    case Arr(items) => items != []
    case Obj(fields) => fields != map[]
  }

  /** `d.get(key, default)`. */
  function GetOr(d: Record, key: string, default: Value): Value {
    if key in d then d[key] else default
  }

  /** The element a hashable value becomes in a Python set. `True == 1 == 1.0`
      in Python, so all three are the same element. */
  datatype Id = NoneId | NumId(x: real) | StrId(s: string)

  /** The set element for `v`, or None when `v` is a list or a dict, which
      Python refuses to hash (`TypeError: unhashable type`). */
  function HashKey(v: Value): (r: Option<Id>)
    ensures r.None? <==> v.Arr? || v.Obj?
    ensures v.Bool? && v.b ==> r == Some(NumId(1.0))
  {
    match v
    case Null => Some(NoneId)
    case Bool(b) => Some(NumId(if b then 1.0 else 0.0))
    case Num(x) => Some(NumId(x))
    case Str(s) => Some(StrId(s))
    case Arr(_) => None
    case Obj(_) => None
  }

  /** `json.dumps` followed by `json.loads` gives the value back, so a value
      appended to a file is read back by the next run as this line. */
  function Encoded(vs: seq<Value>): (r: seq<Line>)
    ensures |r| == |vs|
  {
    if vs == [] then [] else Encoded(vs[..|vs| - 1]) + [Parsed(vs[|vs| - 1])]
  }

  function Min(a: int, b: int): int { if a <= b then a else b }

  /** The first `n` elements of `s`, or all of it when it is shorter. */
  function Take<T>(s: seq<T>, n: nat): seq<T> {
    s[..Min(n, |s|)]
  }

  /** Appending two batches is appending their lines. */
  lemma {:induction false} EncodedAppend(a: seq<Value>, b: seq<Value>)
    ensures Encoded(a + b) == Encoded(a) + Encoded(b)
  {
    if b == [] {
      assert a + b == a;
    } else {
      assert (a + b)[..|a + b| - 1] == a + b[..|b| - 1];
      EncodedAppend(a, b[..|b| - 1]);
    }
  }

  /** Line `i` of an encoded batch is item `i`, read back. */
  lemma {:induction false} EncodedAt(vs: seq<Value>, i: nat)
    requires i < |vs|
    ensures Encoded(vs)[i] == Parsed(vs[i])
  {
    if i < |vs| - 1 {
      EncodedAt(vs[..|vs| - 1], i);
    }
  }

  /** Taking `n` from `a + b` is taking `n` from `a` and, with what is left of
      `n`, from `b`: how a sequence of batches fares against a device that
      accepts `n` more lines. */
  lemma TakeConcat<T>(a: seq<T>, b: seq<T>, n: nat)
    ensures Take(a, n) + Take(b, n - Min(n, |a|)) == Take(a + b, n)
    ensures n - Min(n, |a|) - Min(n - Min(n, |a|), |b|) == n - Min(n, |a| + |b|)
  {
    if n <= |a| {
      assert Take(b, 0) == [];
      assert (a + b)[..n] == a[..n];
    } else {
      assert Take(a, n) == a;
      if n - |a| <= |b| {
        assert (a + b)[..n] == a + b[..n - |a|];
      } else {
        assert (a + b)[..|a + b|] == a + b;
      }
    }
  }
}
