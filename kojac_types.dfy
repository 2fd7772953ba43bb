/**
 * Field types of kojac models and the conversions between them: classifying a value,
 * interpreting a value as a declared field type, reading typed properties into an
 * object, and collecting cached values by id.
 */
module KojacTypes {
  import opened JsValues
  import opened Utils

  /** The field types a model may declare (`Null` and `Int` are virtual types). */
  datatype FieldType = NullType | IntType | NumberType | StringType | BooleanType | DateType | ArrayType | ObjectType

  /**
   * The field type of a value; `None` (null) for a value of no field type, such as a
   * class instance. Every number here is an integer, so a number is `Int`.
   */
  function GetPropertyValueType(v: Value): (t: Option<FieldType>)
    ensures t == Some(NullType) <==> v == Undefined || v == Null
    ensures t == Some(IntType) <==> v.Num?
    ensures t == Some(StringType) <==> v.Str?
    ensures t == Some(BooleanType) <==> v.Bool?
    ensures t == Some(ArrayType) <==> v.Arr?
    ensures t == Some(ObjectType) <==> v.Rec?
    ensures t.None? <==> v.Obj?
  {
    match v
    case Undefined => Some(NullType)
    case Null => Some(NullType)
    case Num(_) => Some(IntType)
    case Str(_) => Some(StringType)
    case Bool(_) => Some(BooleanType)
    case Arr(_) => Some(ArrayType)
    case Rec(_) => Some(ObjectType)
    case Obj(_) => None
  }

  /** `s.trim() == ''`: the text is white space only. */
  predicate IsBlank(s: string) {
    forall i :: 0 <= i < |s| ==> IsJsSpace(s[i])
  }

  /**
   * The conversions this model covers: a string read as a number must be blank or an
   * integer `Number` reads; conversions to Boolean of other types and from strings to
   * Date are not modelled.
   */
  predicate InModelledDomain(v: Value, dest: FieldType) {
    var source := GetPropertyValueType(v);
    source == Some(dest)
    || (dest != BooleanType
        && !(dest == DateType && v.Str?)
        && ((dest == NumberType || dest == IntType) && v.Str? ==> IsBlank(v.s) || NumberOf(v.s).Some?))
  }

  /** `Number(text)` after the blank check that `interpretValueAsType` makes first. */
  function NumberFromText(s: string): Value
    requires IsBlank(s) || NumberOf(s).Some?
  {
    if IsBlank(s) then Null else Num(NumberOf(s).value)
  }

  /**
   * `interpretValueAsType`: the value unchanged when it already has the type (or the type
   * is Null); numbers and booleans printed as strings; booleans as 1 or 0 and integer
   * strings as numbers for Number and Int; null for every other combination. An integer
   * interpreted as a Date is null too, since only non-integers are of type Number.
   */
  function InterpretValueAsType(v: Value, dest: FieldType): (r: Value)
    requires InModelledDomain(v, dest)
    ensures GetPropertyValueType(r) == Some(dest) || r == Null || (dest == NullType && r == v)
            || (dest == NumberType && r.Num?)
    ensures GetPropertyValueType(v) == Some(dest) ==> r == v
    ensures dest == NullType ==> r == v
    ensures (dest == ObjectType || dest == ArrayType) && GetPropertyValueType(v) != Some(dest) ==> r == Null
    ensures v.Bool? && (dest == NumberType || dest == IntType) ==> r == Num(if v.b then 1 else 0)
    ensures v.Bool? && dest == StringType ==> r == Str(if v.b then "true" else "false")
    ensures v.Num? && dest == StringType ==> r == Str(IntToString(v.n))
    ensures v.Str? && (dest == NumberType || dest == IntType) ==>
              (IsBlank(v.s) ==> r == Null) && (!IsBlank(v.s) ==> r == Num(NumberOf(v.s).value))
  {
    var source := GetPropertyValueType(v);
    if source == Some(dest) then v
    else
      match dest
      case NullType => v
      case StringType =>
        (match v
         case Num(n) => Str(IntToString(n))
         case Bool(b) => Str(if b then "true" else "false")
         case _ => Null)
      case NumberType =>
        (match v
         case Bool(b) => Num(if b then 1 else 0)
         case Num(_) => v
         case Str(s) => NumberFromText(s)
         case _ => Null)
      case IntType =>
        (match v
         case Bool(b) => Num(if b then 1 else 0)
         case Str(s) => NumberFromText(s)
         case _ => Null)
      case DateType => Null
      case ObjectType => Null
      case ArrayType => Null
  }

  /** Interpreting an integer as a String and back as an Int gives the integer. */
  lemma IntStringRoundTrip(n: int)
    ensures InModelledDomain(InterpretValueAsType(Num(n), StringType), IntType)
    ensures InterpretValueAsType(InterpretValueAsType(Num(n), StringType), IntType) == Num(n)
  {
    var t := IntToString(n);
    assert !IsBlank(t) by {
      assert t[0] == '-' || IsDigit(t[0]);
      assert !IsJsSpace(t[0]);
    }
    NumberOfIntToString(n);
  }

  /** Interpreting a value a second time as the same type changes nothing. */
  lemma InterpretIdempotent(v: Value, dest: FieldType)
    requires InModelledDomain(v, dest)
    ensures InModelledDomain(InterpretValueAsType(v, dest), dest)
    ensures InterpretValueAsType(InterpretValueAsType(v, dest), dest) == InterpretValueAsType(v, dest)
  {
  }

  /** A definition: a field type per property (`None` where it is undefined) and `__options`. */
  datatype Definition = Definition(types: map<string, Option<FieldType>>, options: Value)

  /** `x == true` in JavaScript's loose equality, for the values that can be an option. */
  predicate LooselyTrue(x: Value) {
    match x
    case Bool(b) => b
    case Num(n) => n == 1
    case Str(s) => NumberOf(s) == Some(1)
    case Arr(_) => NumberOf(ToStr(x)) == Some(1)
    case _ => false
  }

  /** Properties the definition does not name are copied unless `allowDynamic` says otherwise. */
  predicate AllowsDynamic(def: Definition) {
    def.options == Undefined
    || Prop(def.options, "allowDynamic") == Undefined
    || LooselyTrue(Prop(def.options, "allowDynamic"))
  }

  /**
   * Reading property `p` fails: its declared type is undefined, or it is not declared and
   * the definition's `__options` is null, so reading `allowDynamic` from it throws.
   */
  predicate FailsOn(source: map<string, Value>, def: Definition, p: string) {
    p in source
    && ((p in def.types && def.types[p].None?) || (p !in def.types && def.options == Null))
  }

  /** What `readTypedProperties` writes for property `p` when it writes it. */
  function TypedValue(source: map<string, Value>, def: Definition, p: string): Value
    requires p in source
    requires p in def.types && def.types[p].Some? ==> InModelledDomain(source[p], def.types[p].value)
  {
    if p in def.types && def.types[p].Some? then InterpretValueAsType(source[p], def.types[p].value) else source[p]
  }

  predicate Writes(source: map<string, Value>, def: Definition, p: string) {
    p in source && (p in def.types || AllowsDynamic(def)) && !FailsOn(source, def, p)
  }

  predicate TypedDomain(source: map<string, Value>, def: Definition) {
    forall p :: p in source && p in def.types && def.types[p].Some? ==> InModelledDomain(source[p], def.types[p].value)
  }

  /** The fields `readTypedProperties` writes for the properties in `done`. */
  function PartialCopy(source: map<string, Value>, def: Definition, done: set<string>): (m: map<string, Value>)
    requires TypedDomain(source, def)
    ensures forall p :: p in m <==> p in done && Writes(source, def, p)
  {
    map p | p in done && Writes(source, def, p) :: TypedValue(source, def, p)
  }

  /** The fields `readTypedProperties` writes when no property fails. */
  function TypedCopy(source: map<string, Value>, def: Definition): (m: map<string, Value>)
    requires TypedDomain(source, def)
  {
    PartialCopy(source, def, source.Keys)
  }

  lemma PartialCopyStep(source: map<string, Value>, def: Definition, done: set<string>, p: string)
    requires TypedDomain(source, def) && p in source
    ensures Writes(source, def, p) ==>
              PartialCopy(source, def, done + {p}) == PartialCopy(source, def, done)[p := TypedValue(source, def, p)]
    ensures !Writes(source, def, p) ==> PartialCopy(source, def, done + {p}) == PartialCopy(source, def, done)
  {
  }

  /** Setting a key after a union is setting it in the right operand. */
  lemma UpdateUnion<K, V>(a: map<K, V>, b: map<K, V>, k: K, v: V)
    ensures (a + b)[k := v] == a + b[k := v]
  {
  }

  /**
   * `readTypedProperties(dest, source, def)`: every property of `source` that the
   * definition types is written to `dest` interpreted as its type, and every other one
   * is copied when dynamic properties are allowed. A property whose declared type is
   * undefined throws "no definition for <p>", leaving `dest` with the writes for the
   * properties visited before it.
   */
  method ReadTypedProperties(dest: Instance, source: map<string, Value>, def: Definition) returns (c: Completion<Instance>)
    requires TypedDomain(source, def)
    modifies dest
    ensures c.Normal? <==> forall p :: p in source ==> !FailsOn(source, def, p)
    ensures c.Normal? ==> c.value == dest && dest.fields == old(dest.fields) + TypedCopy(source, def)
    ensures c.Threw? ==> exists p :: FailsOn(source, def, p)
    ensures c.Threw? ==> exists done :: done <= source.Keys && dest.fields == old(dest.fields) + PartialCopy(source, def, done)
  {
    var todo := source.Keys;
    ghost var done: set<string> := {};
    while todo != {}
      invariant todo <= source.Keys && done == source.Keys - todo
      invariant forall p :: p in done ==> !FailsOn(source, def, p)
      invariant dest.fields == old(dest.fields) + PartialCopy(source, def, done)
      decreases todo
    {
      var p :| p in todo;
      PartialCopyStep(source, def, done, p);
      if p in def.types {
        var destType := def.types[p];
        if destType.None? {
          assert FailsOn(source, def, p);
          return Threw(ErrorObject("Error", "no definition for " + p));
        }
        UpdateUnion(old(dest.fields), PartialCopy(source, def, done), p, InterpretValueAsType(source[p], destType.value));
        dest.fields := dest.fields[p := InterpretValueAsType(source[p], destType.value)];
      } else if def.options == Null {
        assert FailsOn(source, def, p);
        return Threw(ErrorObject("TypeError", "Cannot read properties of null (reading 'allowDynamic')"));
      } else if AllowsDynamic(def) {
        UpdateUnion(old(dest.fields), PartialCopy(source, def, done), p, source[p]);
        dest.fields := dest.fields[p := source[p]];
      }
      todo := todo - {p};
      done := done + {p};
    }
    c := Normal(dest);
  }

  /** The values `collectIds` gathers, in id order. */
  function Collected(prefix: string, ids: seq<Value>, cache: map<string, Value>, filter: Option<Value -> bool>): (r: seq<Value>)
    ensures filter.None? ==> |r| == |ids|
    ensures filter.None? ==> forall i :: 0 <= i < |ids| ==> r[i] == Lookup(cache, prefix + KeySep + ToStr(ids[i]))
    decreases |ids|
  {
    if ids == [] then []
    else
      var init := Collected(prefix, ids[..|ids| - 1], cache, filter);
      var item := Lookup(cache, prefix + KeySep + ToStr(ids[|ids| - 1]));
      if filter.None? || filter.value(item) then init + [item] else init
  }

  /** The elements of `xs` that `keep` accepts, in order. */
  function Kept(xs: seq<Value>, keep: Value -> bool): (r: seq<Value>)
    ensures |r| <= |xs|
    ensures forall x :: x in r ==> x in xs && keep(x)
    decreases |xs|
  {
    if xs == [] then []
    else
      var init := Kept(xs[..|xs| - 1], keep);
      assert forall x :: x in xs[..|xs| - 1] ==> x in xs;
      if keep(xs[|xs| - 1]) then init + [xs[|xs| - 1]] else init
  }

  /** With a filter, `collectIds` keeps exactly the unfiltered values the filter accepts. */
  lemma {:induction false} CollectedFiltered(prefix: string, ids: seq<Value>, cache: map<string, Value>, keep: Value -> bool)
    ensures Collected(prefix, ids, cache, Some(keep)) == Kept(Collected(prefix, ids, cache, None), keep)
    decreases |ids|
  {
    if ids != [] {
      var all := Collected(prefix, ids, cache, None);
      CollectedFiltered(prefix, ids[..|ids| - 1], cache, keep);
      assert all[..|all| - 1] == Collected(prefix, ids[..|ids| - 1], cache, None);
    }
  }

  /**
   * `collectIds(prefix, ids, cache, filter)`: the cached value under `prefix__id` for each
   * id in turn (undefined where nothing is cached), keeping those the filter accepts.
   */
  method CollectIds(prefix: string, ids: seq<Value>, cache: map<string, Value>, filter: Option<Value -> bool>)
    returns (result: seq<Value>)
    ensures result == Collected(prefix, ids, cache, filter)
  {
    result := [];
    for i := 0 to |ids|
      invariant result == Collected(prefix, ids[..i], cache, filter)
    {
      var item := Lookup(cache, prefix + KeySep + ToStr(ids[i]));
      assert ids[..i + 1][..i] == ids[..i];
      if filter.None? || filter.value(item) {
        result := result + [item];
      }
    }
    assert ids[..|ids|] == ids;
  }
}
