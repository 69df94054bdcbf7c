/** Client code that follows the unit tests of the dynamic array: each
    method drives the container through the contracts alone and states, in
    its postcondition, what the test asserts. The last two exhibit the
    behaviour of `__setitem__` and `remove_index` as the code is written. */
module Scenarios {
  import opened ArraySpec
  import opened DynamicArrays

  /** `DynamicArray()`: empty, capacity 8, a zero-filled buffer; `is_empty`
      holds until one element is added. */
  method DefaultConstruction() returns (size: nat, capacity: nat, buffer: seq<int32>, emptyBefore: bool, emptyAfter: bool)
    ensures size == 0 && capacity == 8 && buffer == Zeros(8)
    ensures emptyBefore && !emptyAfter
  {
    var r := DynamicArray.Create(None);
    var d := r.value;
    size, capacity, buffer := d.Size(), d.arrayCapacity, d.staticArray[..];
    emptyBefore := d.IsEmpty();
    d.AddElement(1);
    emptyAfter := d.IsEmpty();
  }

  /** `DynamicArray(20)` and `DynamicArray(-10)`. */
  method ExplicitCapacity() returns (size: nat, capacity: nat, buffer: seq<int32>, negative: Result<DynamicArray>)
    ensures size == 0 && capacity == 20 && buffer == Zeros(20)
    ensures negative == Err(ValueError)
  {
    var r := DynamicArray.Create(Some(20));
    var d := r.value;
    size, capacity, buffer := d.Size(), d.arrayCapacity, d.staticArray[..];
    negative := DynamicArray.Create(Some(-10));
  }

  /** Two appends to a capacity-2 array fit without growth; the third
      doubles it once. */
  method AppendGrows() returns (sizeTwo: nat, first: Result<int32>, second: Result<int32>,
                                size: nat, capacity: nat, third: Result<int32>)
    ensures sizeTwo == 2 && first == Ok(1) && second == Ok(2)
    ensures size == 3 && capacity == 4 && third == Ok(3)
  {
    var r := DynamicArray.Create(Some(2));
    var d := r.value;
    d.AddElement(1);
    d.AddElement(2);
    sizeTwo, first, second := d.Size(), d.Get(0), d.Get(1);
    d.AddElement(3);
    size, capacity, third := d.Size(), d.arrayCapacity, d.Get(2);
  }

  /** `from_list(lst)` then iterating gives `lst` back, for every `lst`. */
  method FromListRoundTrip(lst: seq<int32>) returns (items: seq<int32>, size: nat, capacity: nat)
    ensures items == lst && size == |lst| && capacity == |lst|
  {
    var r := DynamicArray.FromList(Some(lst));
    var d := r.value;
    items := d.Iter();
    size, capacity := d.Size(), d.arrayCapacity;
  }

  /** Reading in and out of range, and writing in and out of range. */
  method Indexing() returns (got: seq<Result<int32>>, write: Outcome, afterWrite: Result<int32>, badWrite: Outcome)
    ensures got == [Ok(1), Ok(2), Ok(3), Err(IndexError)]
    ensures write == Pass && afterWrite == Ok(99)
    ensures badWrite == Fail(IndexError)
  {
    var r := DynamicArray.FromList(Some([1, 2, 3]));
    var d := r.value;
    got := [d.Get(0), d.Get(1), d.Get(2), d.Get(3)];
    write := d.Set(1, 99);
    afterWrite := d.Get(1);
    badWrite := d.Set(3, 99);
  }

  /** `remove_index(1)` on `[1, 2, 3]`, then an out-of-range removal. */
  method RemoveByIndex() returns (removed: Outcome, items: seq<int32>, bad: Outcome)
    ensures removed == Pass && items == [1, 3]
    ensures bad == Fail(IndexError)
  {
    var r := DynamicArray.FromList(Some([1, 2, 3]));
    var d := r.value;
    removed := d.RemoveIndex(1);
    items := d.Iter();
    var s := DynamicArray.FromList(Some([1, 2, 3]));
    bad := s.value.RemoveIndex(3);
  }

  /** `remove_element(2)` and `remove_element(99)` on `[1, 2, 3]`. */
  method RemoveByValue() returns (found: bool, items: seq<int32>, missing: bool, kept: seq<int32>)
    ensures found && items == [1, 3]
    ensures !missing && kept == [1, 2, 3]
  {
    var r := DynamicArray.FromList(Some([1, 2, 3]));
    var d := r.value;
    found := d.RemoveElement(2);
    items := d.Iter();
    var s := DynamicArray.FromList(Some([1, 2, 3]));
    var e := s.value;
    missing := e.RemoveElement(99);
    kept := e.Iter();
  }

  /** Reversing `[1, 2, 3, 4]`, and reversing an empty array. */
  method ReverseExamples() returns (items: seq<int32>, emptySize: nat)
    ensures items == [4, 3, 2, 1] && emptySize == 0
  {
    var r := DynamicArray.FromList(Some([1, 2, 3, 4]));
    var d := r.value;
    d.Reverse();
    items := d.Iter();
    ghost var original: seq<int32> := [1, 2, 3, 4];
    ReversedAt(original, 0);
    ReversedAt(original, 1);
    ReversedAt(original, 2);
    ReversedAt(original, 3);
    var s := DynamicArray.Create(None);
    var e := s.value;
    e.Reverse();
    emptySize := e.Size();
  }

  /** Binary search in `[1, 2, 3, 4, 5]` for a present and an absent key. */
  method SearchExamples() returns (hit: int, miss: int)
    ensures hit == 2 && miss == -1
  {
    var r := DynamicArray.FromList(Some([1, 2, 3, 4, 5]));
    var d := r.value;
    hit := d.BinarySearch(3);
    miss := d.BinarySearch(99);
  }

  /** Sorting `[4, 3, 1, 2]`. */
  method SortExample() returns (items: seq<int32>)
    ensures items == [1, 2, 3, 4]
  {
    var r := DynamicArray.FromList(Some([4, 3, 1, 2]));
    var d := r.value;
    d.Sort();
    items := d.Iter();
    SortedOfFourThreeOneTwo(items);
  }

  /** `SortedUnique` applied to `[4, 3, 1, 2]`, in a context of its own. */
  lemma SortedOfFourThreeOneTwo(s: seq<int32>)
    requires Sorted(s) && multiset(s) == multiset{4, 3, 1, 2}
    ensures s == [1, 2, 3, 4]
  {
    SortedUnique(s, [1, 2, 3, 4]);
  }

  /** `arr[1] = 99` as written: the slot is written and yet `IndexError`
      is raised, where the unit test expects a normal return. */
  method SetItemRaisesAfterWrite() returns (raised: Outcome, afterWrite: Result<int32>)
    ensures raised == Fail(IndexError) && afterWrite == Ok(99)
  {
    var r := DynamicArray.FromList(Some([1, 2, 3]));
    var d := r.value;
    raised := d.SetItemAsWritten(1, 99);
    afterWrite := d.Get(1);
  }

  /** `remove_index(1)` on `[1, 2, 3]` as written: the element is removed,
      `IndexError` is raised anyway, and the capacity (now 2) no longer
      matches the buffer (still 3 slots). */
  method RemoveIndexRaisesAndShrinksCapacity() returns (raised: Outcome, capacity: nat, bufferSize: nat, items: seq<int32>)
    ensures raised == Fail(IndexError)
    ensures capacity == 2 && bufferSize == 3 && capacity != bufferSize
    ensures items == [1, 3]
  {
    var r := DynamicArray.FromList(Some([1, 2, 3]));
    var d := r.value;
    raised := d.RemoveIndexAsWritten(1);
    capacity, bufferSize := d.arrayCapacity, d.staticArray.Length;
    items := d.staticArray[..d.userLen];
  }
}
