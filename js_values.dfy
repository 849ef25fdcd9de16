/**
 * The JavaScript values the skills read and build: configuration objects,
 * runtime inputs, JSON Schema documents and remote JSON bodies.
 *
 * `Undefined` is what JavaScript yields when a missing property is read, and
 * it can also be stored in an object (`formData.x = configuration.x` with no
 * `x` in the configuration).  Numbers are kept to integers: timeouts, hour
 * counts and ages are; a fractional value such as `number_of_hours / 3` is
 * restated by the operation that computes it.
 */
module JsValues {

  datatype Option<+T> = None | Some(value: T)

  /** A resolved (`Success`) or rejected (`Failure`) call. */
  datatype Result<+T, +E> = Success(value: T) | Failure(error: E)

  datatype Value =
    | Undefined
    | Null
    | Bool(b: bool)
    | Num(n: int)
    | Str(s: string)
    | Arr(items: seq<Value>)
    | Obj(fields: map<string, Value>)

  /** The own properties of a plain object. */
  type Object = map<string, Value>

  /** JavaScript truthiness (`if (v)`, `!v`, `!!v`). */
  predicate Truthy(v: Value) {
    match v
    case Undefined => false
    case Null => false
    case Bool(b) => b
    case Num(n) => n != 0
    case Str(s) => s != ""
    case Arr(_) => true
    case Obj(_) => true
  }

  /** `o.key` on a plain object. */
  function Get(o: Object, key: string): Value {
    if key in o then o[key] else Undefined
  }

  /**
   * `v.key` on a value that is neither `undefined` nor `null`: strings,
   * numbers, booleans and arrays have none of the property names the skills
   * read, so only an object yields something other than `Undefined`.
   */
  function Prop(v: Value, key: string): Value {
    if v.Obj? then Get(v.fields, key) else Undefined
  }

  /** `v.hasOwnProperty(key)`. */
  predicate HasOwn(v: Value, key: string) {
    v.Obj? && key in v.fields
  }

  /** `codes.includes(v)` for a list of strings: only an equal string matches. */
  predicate Includes(codes: set<string>, v: Value) {
    v.Str? && v.s in codes
  }

  /** Reading a property of this value throws a TypeError. */
  predicate IsNullish(v: Value) {
    v.Undefined? || v.Null?
  }

  // ---------------------------------------------------------------------------
  // String conversion, as in a template literal `${v}`

  function DigitChar(d: nat): char
    requires d < 10
  {
    "0123456789"[d]
  }

  function NatToString(n: nat): (r: string)
    ensures |r| >= 1
    decreases n
  {
    if n < 10 then [DigitChar(n)] else NatToString(n / 10) + [DigitChar(n % 10)]
  }

  function IntToString(n: int): string {
    if n < 0 then "-" + NatToString(-n) else NatToString(n)
  }

  /** `arr.join(",")`: `null` and `undefined` elements contribute nothing. */
  function JoinWithCommas(parts: seq<string>): string
    decreases |parts|
  {
    if parts == [] then ""
    else if |parts| == 1 then parts[0]
    else JoinWithCommas(parts[..|parts| - 1]) + "," + parts[|parts| - 1]
  }

  /** The message of the TypeError thrown by reading `receiver.property` when `receiver` is nullish. */
  function TypeErrorMessage(receiver: Value, property: string): string {
    "Cannot read properties of " + Display(receiver) + " (reading '" + property + "')"
  }

  function Display(v: Value): string {
    match v
    case Undefined => "undefined"
    case Null => "null"
    case Bool(b) => if b then "true" else "false"
    case Num(n) => IntToString(n)
    case Str(s) => s
    case Arr(items) =>
      JoinWithCommas(seq(|items|, i requires 0 <= i < |items| =>
        if IsNullish(items[i]) then "" else Display(items[i])))
    case Obj(_) => "[object Object]"
  }

  // ---------------------------------------------------------------------------
  // Paths into nested values: `schema.a.b[0].c`

  datatype Step = Key(name: string) | At(index: nat)

  /** Reads the value at path `p`, `Undefined` where the path leaves the value. */
  function GetPath(v: Value, p: seq<Step>): Value
    decreases |p|
  {
    if p == [] then v
    else match (p[0], v)
      case (Key(k), Obj(f)) => GetPath(Get(f, k), p[1..])
      case (At(i), Arr(a)) => if i < |a| then GetPath(a[i], p[1..]) else Undefined
      case _ => Undefined
  }

  /**
   * The assignment `v.<p> = x`: every step but the last must exist; the last
   * may add a new property to an object.  A path that does not exist leaves
   * the value as it is.
   */
  function SetPath(v: Value, p: seq<Step>, x: Value): Value
    decreases |p|
  {
    if p == [] then x
    else match (p[0], v)
      case (Key(k), Obj(f)) =>
        if |p| == 1 then Obj(f[k := x])
        else if k in f then Obj(f[k := SetPath(f[k], p[1..], x)])
        else v
      case (At(i), Arr(a)) =>
        if i < |a| then Arr(a[i := SetPath(a[i], p[1..], x)]) else v
      case _ => v
  }

  /** Every step of `p` but the last exists in `v`, and the last lands on an object or an array element. */
  predicate Assignable(v: Value, p: seq<Step>)
    decreases |p|
  {
    if p == [] then true
    else match (p[0], v)
      case (Key(k), Obj(f)) => |p| == 1 || (k in f && Assignable(f[k], p[1..]))
      case (At(i), Arr(a)) => i < |a| && Assignable(a[i], p[1..])
      case _ => false
  }

  /** Neither path is a prefix of the other: they reach disjoint parts of a value. */
  predicate Disjoint(p: seq<Step>, q: seq<Step>) {
    !(p <= q) && !(q <= p)
  }

  /** After the assignment the path holds the assigned value. */
  lemma {:induction false} GetSetSame(v: Value, p: seq<Step>, x: Value)
    requires Assignable(v, p)
    ensures GetPath(SetPath(v, p, x), p) == x
    decreases |p|
  {
    if p != [] {
      match (p[0], v)
      case (Key(k), Obj(f)) =>
        if |p| == 1 {
          assert GetPath(SetPath(v, p, x), p) == GetPath(x, p[1..]);
        } else {
          GetSetSame(f[k], p[1..], x);
        }
      case (At(i), Arr(a)) =>
        GetSetSame(a[i], p[1..], x);
    }
  }

  /** An assignment changes nothing outside the path it assigns. */
  lemma {:induction false} GetSetOther(v: Value, p: seq<Step>, x: Value, q: seq<Step>)
    requires Disjoint(p, q)
    ensures GetPath(SetPath(v, p, x), q) == GetPath(v, q)
    decreases |p|
  {
    assert p != [] && q != [];
    if p[0] == q[0] {
      match (p[0], v)
      case (Key(k), Obj(f)) =>
        if |p| > 1 && k in f {
          GetSetOther(f[k], p[1..], x, q[1..]);
        }
      case (At(i), Arr(a)) =>
        if i < |a| {
          GetSetOther(a[i], p[1..], x, q[1..]);
        }
      case _ =>
    }
  }

  /** The quantified form of GetSetOther. */
  lemma SetPathFrame(v: Value, p: seq<Step>, x: Value)
    ensures forall q :: Disjoint(p, q) ==> GetPath(SetPath(v, p, x), q) == GetPath(v, q)
  {
    forall q | Disjoint(p, q) ensures GetPath(SetPath(v, p, x), q) == GetPath(v, q) {
      GetSetOther(v, p, x, q);
    }
  }

  /** Every step of `p` exists in `v`. */
  predicate Exists(v: Value, p: seq<Step>)
    decreases |p|
  {
    if p == [] then true
    else match (p[0], v)
      case (Key(k), Obj(f)) => k in f && Exists(f[k], p[1..])
      case (At(i), Arr(a)) => i < |a| && Exists(a[i], p[1..])
      case _ => false
  }

  /** Reading along `p + q` is reading along `p`, then along `q`. */
  lemma {:induction false} GetPathAppend(v: Value, p: seq<Step>, q: seq<Step>)
    ensures GetPath(v, p + q) == GetPath(GetPath(v, p), q)
    decreases |p|
  {
    if p == [] {
      assert p + q == q;
    } else {
      assert (p + q)[0] == p[0] && (p + q)[1..] == p[1..] + q;
      match (p[0], v)
      case (Key(k), Obj(f)) => GetPathAppend(Get(f, k), p[1..], q);
      case (At(i), Arr(a)) =>
        if i < |a| {
          GetPathAppend(a[i], p[1..], q);
        } else {
          assert GetPath(Undefined, q) == Undefined;
        }
      case _ =>
        assert GetPath(Undefined, q) == Undefined;
    }
  }

  /** A path that extends an existing path by an assignable one is assignable. */
  lemma {:induction false} AssignableAppend(v: Value, p: seq<Step>, q: seq<Step>)
    requires Exists(v, p) && Assignable(GetPath(v, p), q)
    ensures Assignable(v, p + q)
    decreases |p|
  {
    if p == [] {
      assert p + q == q;
    } else {
      assert (p + q)[0] == p[0] && (p + q)[1..] == p[1..] + q;
      match (p[0], v)
      case (Key(k), Obj(f)) => AssignableAppend(f[k], p[1..], q);
      case (At(i), Arr(a)) => AssignableAppend(a[i], p[1..], q);
    }
  }

  /** A path that extends an existing path by an existing one exists. */
  lemma {:induction false} ExistsAppend(v: Value, p: seq<Step>, q: seq<Step>)
    requires Exists(v, p) && Exists(GetPath(v, p), q)
    ensures Exists(v, p + q)
    decreases |p|
  {
    if p == [] {
      assert p + q == q;
    } else {
      assert (p + q)[0] == p[0] && (p + q)[1..] == p[1..] + q;
      match (p[0], v)
      case (Key(k), Obj(f)) => ExistsAppend(f[k], p[1..], q);
      case (At(i), Arr(a)) => ExistsAppend(a[i], p[1..], q);
    }
  }
}
