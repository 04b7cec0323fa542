/**
 Values as Python holds them after reading JSON, with the two ways in which the program compares
 them: `==`, and the text that `json.dumps` writes. A text is as good as the value it was written
 from: it shows the form of every value, and dictionaries are written with sorted keys.
 */
module Values {
  import opened Common

  /**
   `-0.0` is apart from the other floats, as a real number has no such zero. There is one `nan`:
   `json.loads` gives the same object for it every time.
   */
  datatype Value =
    | Null
    | Bool(b: bool)
    | Int(i: int)
    | Float(f: real)
    | MinusZero
    | Infinite(positive: bool)
    | Nan
    | Text(s: string)
    | List(items: seq<Value>)
    | Dict(entries: map<string, Value>)

  /** What a value counts for in a comparison of numbers: `True == 1 == 1.0`. */
  function Number(v: Value): Option<real> {
    match v
    case Bool(b) => Some(if b then 1.0 else 0.0)
    case Int(i) => Some(i as real)
    case Float(f) => Some(f)
    case MinusZero => Some(0.0)
    case _ => None
  }

  /** `==` on what stands in a list or a dictionary, where an object is always equal to itself, and so is the `nan`. */
  predicate Equal(a: Value, b: Value)
    decreases a
  {
    if Number(a).Some? then Number(a) == Number(b)
    else if a.List? && b.List? then
      |a.items| == |b.items| && forall k :: 0 <= k < |a.items| ==> Equal(a.items[k], b.items[k])
    else if a.Dict? && b.Dict? then
      a.entries.Keys == b.entries.Keys && forall k :: k in a.entries ==> Equal(a.entries[k], b.entries[k])
    else a == b
  }

  /** Python's `bool`. */
  predicate Truthy(v: Value) {
    match v
    case Null => false
    case Bool(b) => b
    case Int(i) => i != 0
    case Float(f) => f != 0.0
    case MinusZero => false
    case Infinite(_) => true
    case Nan => true
    case Text(s) => s != ""
    case List(items) => items != []
    case Dict(entries) => entries != map[]
  }

  lemma TruthyMeans(v: Value)
    ensures !Truthy(v) <==>
            v == Null || v == Bool(false) || v == Int(0) || v == Float(0.0) || v == MinusZero || v == Text("")
            || v == List([]) || v == Dict(map[])
  {
  }

  /**
   Equality by the kinds of the two values: numbers and truth values by what they count for, lists and
   dictionaries part by part, and everything else only to itself.
   */
  lemma EqualMeans(a: Value, b: Value)
    ensures (a.Bool? && b.Int? ==> (Equal(a, b) <==> b.i == if a.b then 1 else 0))
            && (a.Bool? && b.Float? ==> (Equal(a, b) <==> b.f == if a.b then 1.0 else 0.0))
            && (a.Int? && b.Float? ==> (Equal(a, b) <==> b.f == a.i as real))
            && (a.MinusZero? && (b.Bool? || b.Int? || b.Float?) ==>
                  (Equal(a, b) <==> b in {Bool(false), Int(0), Float(0.0)}))
            && (a.List? && b.List? ==>
                  (Equal(a, b) <==> |a.items| == |b.items|
                                    && forall k :: 0 <= k < |a.items| ==> Equal(a.items[k], b.items[k])))
            && (a.Dict? && b.Dict? ==>
                  (Equal(a, b) <==> a.entries.Keys == b.entries.Keys
                                    && forall k :: k in a.entries ==> Equal(a.entries[k], b.entries[k])))
            && (a.Null? || a.Infinite? || a.Nan? || a.Text? ==> (Equal(a, b) <==> a == b))
            && ((a.Bool? && b.Bool?) || (a.Int? && b.Int?) || (a.Float? && b.Float?) ==> (Equal(a, b) <==> a == b))
  {
  }

  /** Everywhere the same kind of value: no integer against a float, no `true` against 1, no zero against `-0.0`. */
  predicate SameForm(a: Value, b: Value)
    decreases a
  {
    match a
    case Null => b.Null?
    case Bool(_) => b.Bool?
    case Int(_) => b.Int?
    case Float(_) => b.Float?
    case MinusZero => b.MinusZero?
    case Infinite(_) => b.Infinite?
    case Nan => b.Nan?
    case Text(_) => b.Text?
    case List(items) =>
      b.List? && |items| == |b.items| && forall k :: 0 <= k < |items| ==> SameForm(items[k], b.items[k])
    case Dict(entries) =>
      b.Dict? && entries.Keys == b.entries.Keys && forall k :: k in entries ==> SameForm(entries[k], b.entries[k])
  }

  /** Values are written alike exactly when they are equal and everywhere of the same form. */
  lemma {:induction false} TextIs(a: Value, b: Value)
    ensures a == b <==> Equal(a, b) && SameForm(a, b)
    decreases a
  {
    if a.List? && b.List? && |a.items| == |b.items| {
      forall k | 0 <= k < |a.items|
        ensures a.items[k] == b.items[k] <==> Equal(a.items[k], b.items[k]) && SameForm(a.items[k], b.items[k])
      {
        TextIs(a.items[k], b.items[k]);
      }
      assert a == b <==> a.items == b.items;
    } else if a.Dict? && b.Dict? && a.entries.Keys == b.entries.Keys {
      forall k | k in a.entries
        ensures a.entries[k] == b.entries[k] <==>
                  Equal(a.entries[k], b.entries[k]) && SameForm(a.entries[k], b.entries[k])
      {
        TextIs(a.entries[k], b.entries[k]);
      }
      assert a == b <==> a.entries == b.entries;
    }
  }

  // ----- Equality is an equivalence -----

  lemma EqualItself(a: Value)
    ensures Equal(a, a)
  {
    hide Equal, SameForm;
    TextIs(a, a);
  }

  lemma {:induction false} EqualBack(a: Value, b: Value)
    requires Equal(a, b)
    ensures Equal(b, a)
    decreases a
  {
    if a.List? && b.List? {
      forall k | 0 <= k < |a.items| ensures Equal(b.items[k], a.items[k]) {
        EqualBack(a.items[k], b.items[k]);
      }
    } else if a.Dict? && b.Dict? {
      forall k | k in a.entries ensures Equal(b.entries[k], a.entries[k]) {
        EqualBack(a.entries[k], b.entries[k]);
      }
    }
  }

  lemma {:induction false} EqualOn(a: Value, b: Value, c: Value)
    requires Equal(a, b) && Equal(b, c)
    ensures Equal(a, c)
    decreases a
  {
    if a.List? && b.List? && c.List? {
      forall k | 0 <= k < |a.items| ensures Equal(a.items[k], c.items[k]) {
        EqualOn(a.items[k], b.items[k], c.items[k]);
      }
    } else if a.Dict? && b.Dict? && c.Dict? {
      forall k | k in a.entries ensures Equal(a.entries[k], c.entries[k]) {
        EqualOn(a.entries[k], b.entries[k], c.entries[k]);
      }
    }
  }
}
