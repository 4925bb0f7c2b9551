/** A persistent set: `add` copies the values and returns a new container,
    the receiver is never changed. The values are kept as a duplicate-free
    sequence in insertion order, the iteration order of a JavaScript Set. */
module SetContainer {
  import opened Base

  datatype SetContainer<T> = SetContainer(values: seq<T>)

  /** The containers the class can produce: no value twice. */
  predicate Valid<T(==)>(c: SetContainer<T>) {
    Distinct(c.values)
  }

  /** `new SetContainer()`: no values. */
  function Empty<T>(): (c: SetContainer<T>)
    ensures c.values == []
  {
    SetContainer([])
  }

  /** `add(item)`: a copy of the values with `item` inserted at the end of
      the iteration order if it was absent. */
  function Add<T(==)>(c: SetContainer<T>, item: T): (r: SetContainer<T>)
    requires Valid(c)
    ensures Valid(r)
    ensures item in r.values
    ensures forall i :: 0 <= i < |c.values| ==> c.values[i] in r.values
    ensures forall i :: 0 <= i < |r.values| ==> r.values[i] in c.values || r.values[i] == item
  {
    var newItems := c.values;
    if item in newItems then SetContainer(newItems) else SetContainer(newItems + [item])
  }

  /** `count()`: the number of values, which for a valid container is the
      size of the set they form. */
  function Count<T(==)>(c: SetContainer<T>): (r: nat)
    ensures Valid(c) ==> r == |set x | x in c.values|
  {
    if Valid(c) then DistinctCardinality(c.values); |c.values| else |c.values|
  }

  /** A duplicate-free sequence has as many elements as the set of them. */
  lemma {:induction false} DistinctCardinality<T>(s: seq<T>)
    requires Distinct(s)
    ensures |set x | x in s| == |s|
  {
    if s != [] {
      var rest := s[1..];
      assert Distinct(rest) by {
        forall i, j | 0 <= i < j < |rest|
          ensures rest[i] != rest[j]
        {
          assert rest[i] == s[i + 1] && rest[j] == s[j + 1];
        }
      }
      DistinctCardinality(rest);
      assert s[0] !in rest by {
        forall i | 0 <= i < |rest|
          ensures rest[i] != s[0]
        {
          assert rest[i] == s[i + 1];
        }
      }
      assert (set x | x in s) == (set x | x in rest) + {s[0]} by {
        assert s == [s[0]] + rest;
      }
    }
  }

  /** Iteration: the values, each exactly once. */
  function Elements<T(==)>(c: SetContainer<T>): (r: seq<T>)
    requires Valid(c)
    ensures Distinct(r) && |r| == Count(c)
    ensures forall i :: 0 <= i < |r| ==> r[i] in c.values
    ensures (set x | x in r) == (set x | x in c.values)
  {
    c.values
  }

  /** A default-constructed container is empty with count 0, and is valid. */
  lemma EmptyCount<T>()
    ensures Count(Empty<T>()) == 0 && Valid(Empty<T>())
  {
  }

  /** The count grows by one exactly when the item was absent. */
  lemma AddCount<T>(c: SetContainer<T>, item: T)
    requires Valid(c)
    ensures item in c.values ==> Count(Add(c, item)) == Count(c)
    ensures item !in c.values ==> Count(Add(c, item)) == Count(c) + 1
  {
  }

  /** Adding is idempotent: adding the same item twice is adding it once. */
  lemma AddIdempotent<T>(c: SetContainer<T>, item: T)
    requires Valid(c)
    ensures Add(Add(c, item), item) == Add(c, item)
  {
  }

  /** Containers built by adds from the empty one are valid, hold exactly
      the added items, and count the distinct ones. */
  function AddAll<T(==)>(items: seq<T>): (c: SetContainer<T>)
    ensures Valid(c)
    ensures forall i :: 0 <= i < |items| ==> items[i] in c.values
    ensures forall i :: 0 <= i < |c.values| ==> c.values[i] in items
    ensures Count(c) <= |items|
  {
    if items == [] then Empty()
    else
      var c0 := AddAll(items[..|items| - 1]);
      assert forall i :: 0 <= i < |items| - 1 ==> items[i] == items[..|items| - 1][i];
      Add(c0, items[|items| - 1])
  }
}
