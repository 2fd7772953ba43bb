/**
 * The JavaScript values that the kojac client moves between its caller, its cache and
 * its transport, with the language rules the client leans on: truthiness, `||`,
 * property reads that yield `undefined` for a missing key, and `String(v)`.
 *
 * Plain records (`Rec`) are JSON data and are modelled as values. Objects with an
 * identity of their own (`Obj`: instances built by the object factory, which the cache
 * may share with operation results) are heap objects, so that "the same object" can
 * be stated as reference equality.
 */
module JsValues {

  datatype Option<+T> = None | Some(value: T)

  /** The completion of a JavaScript call: a normal return, or a thrown value. */
  datatype Completion<+T> = Normal(value: T) | Threw(error: Value)

  /**
   * A constructor the object factory can instantiate. `observable` says whether its
   * instances offer beginPropertyChanges/endPropertyChanges; `failure` is the value its
   * constructor throws, if it throws.
   */
  datatype ClassRef = ClassRef(name: string, observable: bool, failure: Option<Value>)

  datatype Value =
    | Undefined
    | Null
    | Bool(b: bool)
    | Num(n: int)
    | Str(s: string)
    | Arr(items: seq<Value>)
    | Rec(fields: map<string, Value>)
    | Obj(obj: Instance)

  /** An object with identity: its fields are updated in place. */
  class Instance {
    const cls: ClassRef
    var fields: map<string, Value>
    /** How many beginPropertyChanges calls are still waiting for their endPropertyChanges. */
    var changeDepth: int

    constructor (cls: ClassRef, fields: map<string, Value>)
      ensures this.cls == cls && this.fields == fields && changeDepth == 0
    {
      this.cls := cls;
      this.fields := fields;
      changeDepth := 0;
    }

    method BeginPropertyChanges()
      requires cls.observable
      modifies this
      ensures changeDepth == old(changeDepth) + 1 && fields == old(fields)
    {
      changeDepth := changeDepth + 1;
    }

    method EndPropertyChanges()
      requires cls.observable
      modifies this
      ensures changeDepth == old(changeDepth) - 1 && fields == old(fields)
    {
      changeDepth := changeDepth - 1;
    }

    /** Copies every field of `incoming` onto this object, keeping fields it does not name. */
    method SetProperties(incoming: map<string, Value>)
      modifies this
      ensures fields == old(fields) + incoming && changeDepth == old(changeDepth)
    {
      fields := fields + incoming;
    }
  }

  /** A thrown `Error`: a record carrying the error's name and message. */
  function ErrorObject(name: string, message: string): (e: Value)
    ensures e.Rec? && Lookup(e.fields, "message") == Str(message)
  {
    Rec(map["name" := Str(name), "message" := Str(message)])
  }

  /** JavaScript truthiness (integers only: there is no NaN here). */
  predicate Truthy(v: Value) {
    match v
    case Undefined => false
    case Null => false
    case Bool(b) => b
    case Num(n) => n != 0
    case Str(s) => s != ""
    case _ => true
  }

  /** `a || b` */
  function Or(a: Value, b: Value): (r: Value)
    ensures Truthy(r) <==> Truthy(a) || Truthy(b)
    ensures Truthy(a) ==> r == a
    ensures !Truthy(a) ==> r == b
  {
    if Truthy(a) then a else b
  }

  /** A nullable string field is truthy when it is present and not empty. */
  predicate Present(s: Option<string>) {
    s.Some? && s.value != ""
  }

  /** `_.isObjectStrict`: a non-null object that is neither an array nor a primitive. */
  predicate IsObjectStrict(v: Value) {
    v.Rec? || v.Obj?
  }

  /** Reading property `k` of a record: `undefined` when the record has no such key. */
  function Lookup(m: map<string, Value>, k: string): (r: Value)
    ensures k in m ==> r == m[k]
    ensures k !in m ==> r == Undefined
  {
    if k in m then m[k] else Undefined
  }

  /** Property read on a plain value: only records have properties in this model. */
  function Prop(v: Value, name: string): (r: Value)
    ensures v.Rec? ==> r == Lookup(v.fields, name)
    ensures !v.Rec? ==> r == Undefined
  {
    if v.Rec? then Lookup(v.fields, name) else Undefined
  }

  /** The own fields of a structured value: a record's entries or an instance's current fields. */
  function FieldsOf(v: Value): map<string, Value>
    reads if v.Obj? then {v.obj} else {}
  {
    match v
    case Rec(m) => m
    case Obj(o) => o.fields
    case _ => map[]
  }

  /** The instances held directly (not nested) as values of `m`. */
  function ObjectsIn(m: map<string, Value>): set<Instance> {
    set k | k in m && m[k].Obj? :: m[k].obj
  }

  /** The instances a value holds, at any depth of its arrays and records (not inside instances). */
  function InstancesIn(v: Value): set<Instance>
    decreases v
  {
    match v
    case Obj(o) => {o}
    case Arr(xs) => set i, o | 0 <= i < |xs| && o in InstancesIn(xs[i]) :: o
    case Rec(m) => set k, o | k in m && o in InstancesIn(m[k]) :: o
    case _ => {}
  }

  /** The instances a value holds are allocated objects, so a call that allocates leaves them be. */
  lemma {:induction false} InstancesAllocated(v: Value)
    ensures forall o :: o in InstancesIn(v) ==> allocated(o)
    decreases v
  {
    match v
    case Arr(xs) =>
      forall i | 0 <= i < |xs| ensures forall o :: o in InstancesIn(xs[i]) ==> allocated(o) {
        InstancesAllocated(xs[i]);
      }
    case Rec(m) =>
      forall k | k in m ensures forall o :: o in InstancesIn(m[k]) ==> allocated(o) {
        InstancesAllocated(m[k]);
      }
    case _ =>
  }

  function DigitChar(d: nat): char
    requires d < 10
  {
    "0123456789"[d]
  }

  predicate IsDigit(c: char) {
    '0' <= c <= '9'
  }

  /** Decimal digits of `n`, most significant first, without leading zeros. */
  function NatToString(n: nat): (s: string)
    ensures |s| > 0
    ensures forall i :: 0 <= i < |s| ==> IsDigit(s[i])
    ensures n > 0 ==> s[0] != '0'
    decreases n
  {
    if n < 10 then [DigitChar(n)] else NatToString(n / 10) + [DigitChar(n % 10)]
  }

  /** Number.prototype.toString for an integer. */
  function IntToString(n: int): (s: string)
    ensures |s| > 0
    ensures n >= 0 ==> s == NatToString(n)
    ensures n < 0 ==> s == "-" + NatToString(-n)
    ensures forall i :: 0 <= i < |s| ==> s[i] == '-' || IsDigit(s[i])
  {
    if n < 0 then "-" + NatToString(-n) else NatToString(n)
  }

  /** `String(v)`; an instance prints as a plain object does (custom toString is not modelled). */
  function ToStr(v: Value): string {
    match v
    case Undefined => "undefined"
    case Null => "null"
    case Bool(b) => if b then "true" else "false"
    case Num(n) => IntToString(n)
    case Str(s) => s
    case Arr(items) => JoinElements(items)
    case Rec(_) => "[object Object]"
    case Obj(_) => "[object Object]"
  }

  /** Array.prototype.join(",") as used by an array's toString: null and undefined print as "". */
  function JoinElements(items: seq<Value>): string
    decreases items
  {
    if items == [] then ""
    else
      var first := if items[0] == Undefined || items[0] == Null then "" else ToStr(items[0]);
      if |items| == 1 then first else first + "," + JoinElements(items[1..])
  }
}
