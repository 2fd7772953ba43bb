/**
 * The client's cache: a key/value store in which storing `undefined` removes the key,
 * so a cached key always holds a defined value.
 */
module KojacCache {
  import opened JsValues

  /** The cache contents after storing `v` under `k`. */
  function Stored(data: map<string, Value>, k: string, v: Value): (d: map<string, Value>)
    ensures v == Undefined ==> k !in d
    ensures v != Undefined ==> k in d && d[k] == v
    ensures forall j :: j != k ==> (j in d <==> j in data) && (j in d ==> d[j] == data[j])
  {
    if v == Undefined then data - {k} else data[k := v]
  }

  /** Reading back a key just stored gives the stored value, `undefined` included. */
  lemma RetrieveAfterStore(data: map<string, Value>, k: string, v: Value)
    ensures Lookup(Stored(data, k, v), k) == v
  {
  }

  /** Storing under one key leaves every other key as it was. */
  lemma StoreKeepsOtherKeys(data: map<string, Value>, k: string, v: Value, j: string)
    requires j != k
    ensures Lookup(Stored(data, k, v), j) == Lookup(data, j)
  {
  }

  /** Storing the same value twice is the same as storing it once. */
  lemma StoreIdempotent(data: map<string, Value>, k: string, v: Value)
    ensures Stored(Stored(data, k, v), k, v) == Stored(data, k, v)
  {
  }

  /** Storing never leaves an `undefined` entry behind. */
  lemma StoreKeepsValuesDefined(data: map<string, Value>, k: string, v: Value)
    requires Undefined !in data.Values
    ensures Undefined !in Stored(data, k, v).Values
  {
    var d := Stored(data, k, v);
    forall j | j in d
      ensures d[j] != Undefined
    {
      if j != k {
        assert data[j] in data.Values;
      }
    }
  }

  class Cache {
    var data: map<string, Value>
    /** Whether this cache offers beginPropertyChanges/endPropertyChanges. */
    const observable: bool
    /** How many beginPropertyChanges calls are still waiting for their endPropertyChanges. */
    var changeDepth: int

    /** No key is held with an `undefined` value. */
    predicate Valid()
      reads this
    {
      Undefined !in data.Values
    }

    constructor (observable: bool)
      ensures data == map[] && this.observable == observable && changeDepth == 0
      ensures Valid()
    {
      data := map[];
      this.observable := observable;
      changeDepth := 0;
    }

    /** `store(k, v)`: removes `k` when `v` is undefined, otherwise sets it; returns `v`. */
    method Store(k: string, v: Value) returns (r: Value)
      modifies this
      ensures r == v
      ensures data == Stored(old(data), k, v)
      ensures changeDepth == old(changeDepth)
      ensures old(Valid()) ==> Valid()
    {
      if Valid() {
        StoreKeepsValuesDefined(data, k, v);
      }
      if v == Undefined {
        data := data - {k};
        return v;
      } else {
        data := data[k := v];
        return v;
      }
    }

    /** `retrieve(k)`: undefined exactly when nothing is cached under `k`. */
    function Retrieve(k: string): (r: Value)
      reads this
      ensures Valid() ==> (r == Undefined <==> k !in data)
      ensures k in data ==> r == data[k]
    {
      if k in data then data[k] else Undefined
    }

    method BeginPropertyChanges()
      requires observable
      modifies this
      ensures changeDepth == old(changeDepth) + 1 && data == old(data)
    {
      changeDepth := changeDepth + 1;
    }

    method EndPropertyChanges()
      requires observable
      modifies this
      ensures changeDepth == old(changeDepth) - 1 && data == old(data)
    {
      changeDepth := changeDepth - 1;
    }
  }
}
