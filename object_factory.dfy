/**
 * The default object factory: picks a class for a cache key (first matching pattern,
 * then a capitalised resource name found in the namespace, then the default class) and
 * builds instances of it from result values.
 */
module ObjectFactory {
  import opened JsValues
  import opened Utils

  /** A registered pair: a key pattern (its `test`) and the class to use for matching keys. */
  datatype Matcher = Matcher(test: string -> bool, cls: ClassRef)

  /** The built-in `Object` constructor: `new Object(o)` hands back `o` itself. */
  const ObjectClass := ClassRef("Object", false, None)

  /** `String.prototype.toUpperCase` on one character (ASCII letters only). */
  function ToUpper(c: char): char {
    if 'a' <= c <= 'z' then (c as int - 32) as char else c
  }

  /** Index of the first matcher whose pattern accepts `key`. */
  function FirstMatch(matchers: seq<Matcher>, key: string): (r: Option<nat>)
    ensures r.Some? ==> r.value < |matchers| && matchers[r.value].test(key)
    ensures r.Some? ==> forall j :: 0 <= j < r.value ==> !matchers[j].test(key)
    ensures r.None? ==> forall j :: 0 <= j < |matchers| ==> !matchers[j].test(key)
    decreases |matchers|
  {
    if matchers == [] then None
    else if matchers[0].test(key) then Some(0)
    else match FirstMatch(matchers[1..], key)
      case None => None
      case Some(i) => Some(i + 1)
  }

  /** The key's resource names a class: non-empty, first character unchanged by upper-casing, in the namespace. */
  predicate NamesClass(namespace: map<string, ClassRef>, key: string) {
    var r := KeyResource(key);
    r != "" && r[0] == ToUpper(r[0]) && r in namespace
  }

  /** The properties a class is instantiated with: `props || {}`. */
  function PropsOrEmpty(props: Value): (p: Value)
    ensures Truthy(props) ==> p == props
    ensures !Truthy(props) ==> p == Rec(map[])
  {
    Or(props, Rec(map[]))
  }

  /** `v` is what `new cls(props || {})` gives when the constructor returns normally. */
  predicate BuiltFrom(cls: ClassRef, props: Value, v: Value)
    reads (if props.Obj? then {props.obj} else {}), (if v.Obj? then {v.obj} else {})
  {
    if cls == ObjectClass then v == PropsOrEmpty(props)
    else
      v.Obj? && v.obj.cls == cls && v.obj.changeDepth == 0
      && v.obj.fields == (if props.Obj? || props.Rec? then FieldsOf(props) else map[])
  }

  class Factory {
    /** The namespace in which capitalised resource names are looked up. */
    var namespace: map<string, ClassRef>
    var matchers: Option<seq<Matcher>>
    var defaultClass: ClassRef

    constructor (namespace: map<string, ClassRef>)
      ensures this.namespace == namespace && matchers.None? && defaultClass == ObjectClass
    {
      this.namespace := namespace;
      matchers := None;
      defaultClass := ObjectClass;
    }

    function Registered(): seq<Matcher>
      reads this
    {
      if matchers.Some? then matchers.value else []
    }

    /** `register(pairs)`: nothing for null; otherwise appends the pairs in order. */
    method Register(pairs: Option<seq<Matcher>>)
      modifies this
      ensures pairs.None? ==> matchers == old(matchers)
      ensures pairs.Some? ==> matchers == Some(old(Registered()) + pairs.value)
      ensures namespace == old(namespace) && defaultClass == old(defaultClass)
    {
      if pairs.None? {
        return;
      }
      ghost var before := Registered();
      if matchers.None? {
        matchers := Some([]);
      }
      var i := 0;
      assert before + pairs.value[..0] == before;
      assert matchers == Some(before);
      while i < |pairs.value|
        invariant 0 <= i <= |pairs.value|
        invariant matchers == Some(before + pairs.value[..i])
        invariant namespace == old(namespace) && defaultClass == old(defaultClass)
      {
        assert pairs.value[..i + 1] == pairs.value[..i] + [pairs.value[i]];
        assert before + pairs.value[..i + 1] == (before + pairs.value[..i]) + [pairs.value[i]];
        matchers := Some(matchers.value + [pairs.value[i]]);
        i := i + 1;
      }
      assert pairs.value[..i] == pairs.value;
    }

    /**
     * The class a key resolves to: the class of the first matcher accepting the key;
     * failing that, the namespace entry for a capitalised resource name; failing that,
     * the default class.
     */
    function ResolvedClass(key: string): (cls: ClassRef)
      reads this
      ensures FirstMatch(Registered(), key).Some? ==> cls == Registered()[FirstMatch(Registered(), key).value].cls
      ensures FirstMatch(Registered(), key).None? && NamesClass(namespace, key) ==> cls == namespace[KeyResource(key)]
      ensures FirstMatch(Registered(), key).None? && !NamesClass(namespace, key) ==> cls == defaultClass
    {
      var m := FirstMatch(Registered(), key);
      if m.Some? then Registered()[m.value].cls
      else if NamesClass(namespace, key) then namespace[KeyResource(key)]
      else defaultClass
    }

    /** `classFromKey(key)`: a first-match search over the matchers, then the fallbacks. */
    method ClassFromKey(key: string) returns (cls: ClassRef)
      ensures cls == ResolvedClass(key)
    {
      var found: Option<ClassRef> := None;
      var ms := Registered();
      var i := 0;
      while i < |ms| && found.None?
        invariant 0 <= i <= |ms|
        invariant found.None? ==> forall j :: 0 <= j < i ==> !ms[j].test(key)
        invariant found.Some? ==> FirstMatch(ms, key).Some? && found.value == ms[FirstMatch(ms, key).value].cls
        decreases |ms| - i, if found.None? then 1 else 0
      {
        if ms[i].test(key) {
          FirstMatchAt(ms, key, i);
          found := Some(ms[i].cls);
        } else {
          i := i + 1;
        }
      }
      if found.None? {
        var r := KeyResource(key);
        if r != "" && r[0] == ToUpper(r[0]) && r in namespace {
          found := Some(namespace[r]);
        }
      }
      if found.None? {
        found := Some(defaultClass);
      }
      cls := found.value;
    }

    /**
     * `createInstance(cls, props)`: `new cls(props || {})`, or the value the constructor throws.
     * An instance of any class but `Object` is a fresh object holding the properties' fields.
     */
    method CreateInstance(cls: ClassRef, props: Value) returns (c: Completion<Value>)
      ensures cls.failure.Some? && cls != ObjectClass ==> c == Threw(cls.failure.value)
      ensures cls.failure.None? || cls == ObjectClass ==> c.Normal? && BuiltFrom(cls, props, c.value)
      ensures c.Normal? && cls != ObjectClass ==> fresh(c.value.obj)
    {
      var p := PropsOrEmpty(props);
      if cls == ObjectClass {
        return Normal(p);
      }
      if cls.failure.Some? {
        return Threw(cls.failure.value);
      }
      var fields := if p.Rec? then p.fields else if p.Obj? then p.obj.fields else map[];
      var o := new Instance(cls, fields);
      c := Normal(Obj(o));
    }

    /**
     * `manufacture(value, key)`: for an array, one new instance per element, element `i`
     * built from `value[i]`; otherwise a single instance built from `value`. A throwing
     * constructor ends the loop and the throw propagates.
     */
    method Manufacture(value: Value, key: string) returns (c: Completion<Value>, ghost cls: ClassRef)
      ensures cls == ResolvedClass(key)
      ensures cls.failure.Some? && cls != ObjectClass && (!value.Arr? || |value.items| > 0) ==> c == Threw(cls.failure.value)
      ensures c.Normal? && value.Arr? ==>
                c.value.Arr? && |c.value.items| == |value.items|
                && forall i :: 0 <= i < |value.items| ==> BuiltFrom(cls, value.items[i], c.value.items[i])
      ensures c.Normal? && !value.Arr? ==> BuiltFrom(cls, value, c.value)
      ensures cls.failure.None? || cls == ObjectClass ==> c.Normal?
      ensures c.Normal? && !value.Arr? && cls != ObjectClass ==> fresh(c.value.obj)
    {
      var newClass := ClassFromKey(key);
      cls := newClass;
      if value.Arr? {
        var xs := value.items;
        var result: seq<Value> := [];
        for i := 0 to |xs|
          invariant |result| == i
          invariant forall j :: 0 <= j < i ==> BuiltFrom(cls, xs[j], result[j])
          invariant i > 0 ==> cls.failure.None? || cls == ObjectClass
        {
          var made := CreateInstance(newClass, xs[i]);
          if made.Threw? {
            return made, cls;
          }
          result := result + [made.value];
        }
        c := Normal(Arr(result));
      } else {
        c := CreateInstance(newClass, value);
      }
    }
  }

  lemma FirstMatchAt(ms: seq<Matcher>, key: string, i: nat)
    requires i < |ms| && ms[i].test(key)
    requires forall j :: 0 <= j < i ==> !ms[j].test(key)
    ensures FirstMatch(ms, key) == Some(i)
  {
    match FirstMatch(ms, key)
    case None =>
    case Some(k) =>
  }
}
