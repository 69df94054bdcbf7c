/** A growable array of 32-bit signed integers: a fixed-size backing buffer,
    the capacity allocated for it and the number of slots in use. */
module DynamicArrays {
  import opened ArraySpec

  /** The exceptions the container raises. */
  datatype Error = ValueError | IndexError

  datatype Option<T> = None | Some(value: T)

  /** A value, or the exception raised instead of returning it. */
  datatype Result<T> = Ok(value: T) | Err(error: Error)

  /** Normal return, or the exception raised instead. */
  datatype Outcome = Pass | Fail(error: Error)

  /** The capacity `add_element` grows a full buffer to: double it, and at
      least 1 so that an empty buffer grows too. */
  function GrownCapacity(capacity: nat): (c: nat)
    ensures c >= 1 && c > capacity
    ensures capacity == 0 ==> c == 1
    ensures capacity > 0 ==> c == 2 * capacity
  {
    if 2 * capacity > 1 then 2 * capacity else 1
  }

  class DynamicArray {
    static const DefaultCapacity: nat := 8

    var staticArray: array<int32>
    var arrayCapacity: nat
    var userLen: nat

    /** The object invariant: the capacity is the size of the buffer and the
        logical length fits in it. */
    ghost predicate Valid()
      reads this
    {
      staticArray.Length == arrayCapacity && userLen <= arrayCapacity
    }

    /** The logical contents: the first `userLen` slots of the buffer. */
    ghost function Elements(): seq<int32>
      reads this, staticArray
      requires Valid()
    {
      staticArray[..userLen]
    }

    /** `__init__` with a capacity already known to be non-negative. */
    constructor (capacity: nat)
      ensures Valid() && fresh(staticArray)
      ensures arrayCapacity == capacity && Elements() == []
      ensures staticArray[..] == Zeros(capacity)
    {
      staticArray := new int32[capacity](_ => 0);
      arrayCapacity := capacity;
      userLen := 0;
    }

    /** `DynamicArray(array_capacity)`: no argument means the default
        capacity 8; a negative capacity raises `ValueError`. */
    static method Create(capacity: Option<int>) returns (r: Result<DynamicArray>)
      ensures var c := if capacity.None? then DefaultCapacity else capacity.value;
              if c < 0 then r == Err(ValueError)
              else
                && r.Ok? && fresh(r.value) && fresh(r.value.staticArray)
                && r.value.Valid() && r.value.arrayCapacity == c
                && r.value.Elements() == [] && r.value.staticArray[..] == Zeros(c)
    {
      var c := if capacity.None? then DefaultCapacity else capacity.value;
      if c < 0 {
        return Err(ValueError);
      }
      var d := new DynamicArray(c);
      return Ok(d);
    }

    /** `from_list`: length and capacity both become `|lst|` and the buffer
        holds `lst` in order; a missing list raises `ValueError`. */
    static method FromList(lst: Option<seq<int32>>) returns (r: Result<DynamicArray>)
      ensures lst.None? <==> r == Err(ValueError)
      ensures lst.Some? ==>
                && r.Ok? && fresh(r.value) && fresh(r.value.staticArray)
                && r.value.Valid()
                && r.value.arrayCapacity == r.value.userLen == |lst.value|
                && r.value.Elements() == r.value.staticArray[..] == lst.value
    {
      if lst.None? {
        return Err(ValueError);
      }
      var s := lst.value;
      var d := new DynamicArray(|s|);
      var buffer := new int32[|s|](k requires 0 <= k < |s| => s[k]);
      d.staticArray := buffer;
      d.userLen := |s|;
      d.arrayCapacity := |s|;
      assert buffer[..] == s;
      return Ok(d);
    }

    /** `size`: the number of elements in use. */
    function Size(): (n: nat)
      reads this, staticArray
      requires Valid()
      ensures n == |Elements()|
    {
      userLen
    }

    /** `is_empty`. */
    function IsEmpty(): (b: bool)
      reads this, staticArray
      requires Valid()
      ensures b <==> Elements() == []
    {
      userLen == 0
    }

    /** `__getitem__`: the element at `index`, or `IndexError` outside
        `[0, userLen)`. */
    function Get(index: int): (r: Result<int32>)
      reads this, staticArray
      requires Valid()
      ensures r.Ok? <==> 0 <= index < |Elements()|
      ensures r.Ok? ==> r.value == Elements()[index]
      ensures r.Err? ==> r.error == IndexError
    {
      if 0 <= index < userLen then Ok(staticArray[index]) else Err(IndexError)
    }

    /** `__setitem__` with its evidently intended behaviour: an in-range
        write returns normally and changes that one slot only; any other
        index raises `IndexError` and changes nothing. */
    method Set(index: int, value: int32) returns (r: Outcome)
      requires Valid()
      modifies staticArray
      ensures Valid()
      ensures r == if 0 <= index < userLen then Pass else Fail(IndexError)
      ensures r.Pass? ==> Elements() == old(Elements())[index := value]
      ensures staticArray[..] == if r.Pass? then old(staticArray[..])[index := value]
                                 else old(staticArray[..])
    {
      if 0 <= index < userLen {
        staticArray[index] := value;
        return Pass;
      }
      return Fail(IndexError);
    }

    /** `__setitem__` as written: the write happens for an in-range index,
        and `IndexError` is raised in every case. */
    method SetItemAsWritten(index: int, value: int32) returns (r: Outcome)
      requires Valid()
      modifies staticArray
      ensures Valid()
      ensures r == Fail(IndexError)
      ensures staticArray[..] == if 0 <= index < userLen then old(staticArray[..])[index := value]
                                 else old(staticArray[..])
    {
      if 0 <= index < userLen {
        staticArray[index] := value;
      }
      return Fail(IndexError);
    }

    /** `add_element`: a full buffer is first grown to `GrownCapacity`,
        then `elem` goes into slot `userLen` and the length grows by one. */
    method AddElement(elem: int32)
      requires Valid()
      modifies this, staticArray
      ensures Valid()
      ensures Elements() == old(Elements()) + [elem]
      ensures old(userLen) < old(arrayCapacity) ==>
                && staticArray == old(staticArray)
                && arrayCapacity == old(arrayCapacity)
                && staticArray[..] == old(staticArray[..])[old(userLen) := elem]
      ensures old(userLen) >= old(arrayCapacity) ==>
                && fresh(staticArray)
                && arrayCapacity == GrownCapacity(old(arrayCapacity))
                && staticArray[..] == old(Elements()) + [elem] + Zeros(arrayCapacity - userLen)
    {
      if userLen >= arrayCapacity {
        Resize(GrownCapacity(arrayCapacity));
      }
      staticArray[userLen] := elem;
      userLen := userLen + 1;
    }

    /** `_resize`: a fresh zero-filled buffer of `newCapacity` slots that
        starts with the current contents. */
    method Resize(newCapacity: nat)
      requires Valid()
      requires userLen <= newCapacity
      modifies this
      ensures Valid() && fresh(staticArray)
      ensures arrayCapacity == newCapacity && userLen == old(userLen)
      ensures staticArray[..] == old(Elements()) + Zeros(newCapacity - userLen)
    {
      var newArray := new int32[newCapacity](_ => 0);
      forall k | 0 <= k < userLen {
        newArray[k] := staticArray[k];
      }
      staticArray := newArray;
      arrayCapacity := newCapacity;
    }

    /** `remove_index` with its evidently intended behaviour: the slice
        assignment moves every slot after `rmIndex` one place left (the last
        slot keeps its value), the length drops by one, the capacity stays;
        any other index raises `IndexError` and changes nothing. */
    method RemoveIndex(rmIndex: int) returns (r: Outcome)
      requires Valid()
      modifies this, staticArray
      ensures Valid()
      ensures staticArray == old(staticArray) && arrayCapacity == old(arrayCapacity)
      ensures r == if 0 <= rmIndex < old(userLen) then Pass else Fail(IndexError)
      ensures r.Pass? ==>
                && userLen == old(userLen) - 1
                && Elements() == RemoveAt(old(Elements()), rmIndex)
                && staticArray[..arrayCapacity - 1] == RemoveAt(old(staticArray[..]), rmIndex)
                && staticArray[arrayCapacity - 1] == old(staticArray[arrayCapacity - 1])
      ensures r.Fail? ==> userLen == old(userLen) && staticArray[..] == old(staticArray[..])
    {
      if 0 <= rmIndex < userLen {
        ShiftLeft(rmIndex);
        userLen := userLen - 1;
        return Pass;
      }
      return Fail(IndexError);
    }

    /** `remove_index` as written: the same shift, but the capacity is also
        decremented (so it no longer matches the buffer) and `IndexError` is
        raised in every case. */
    method RemoveIndexAsWritten(rmIndex: int) returns (r: Outcome)
      requires Valid()
      modifies this, staticArray
      ensures staticArray == old(staticArray)
      ensures r == Fail(IndexError)
      ensures 0 <= rmIndex < old(userLen) ==>
                && userLen == old(userLen) - 1
                && arrayCapacity == staticArray.Length - 1
                && !Valid()
                && staticArray[..userLen] == RemoveAt(old(staticArray[..userLen]), rmIndex)
                && staticArray[..staticArray.Length - 1] == RemoveAt(old(staticArray[..]), rmIndex)
                && staticArray[staticArray.Length - 1] == old(staticArray[staticArray.Length - 1])
      ensures !(0 <= rmIndex < old(userLen)) ==>
                && Valid()
                && userLen == old(userLen) && arrayCapacity == old(arrayCapacity)
                && staticArray[..] == old(staticArray[..])
    {
      if 0 <= rmIndex < userLen {
        ShiftLeft(rmIndex);
        userLen := userLen - 1;
        arrayCapacity := arrayCapacity - 1;
      }
      return Fail(IndexError);
    }

    /** The slice assignment `static_array[i:-1] = static_array[i+1:]`. */
    method ShiftLeft(i: nat)
      requires Valid()
      requires i < arrayCapacity
      modifies staticArray
      ensures staticArray[..arrayCapacity - 1] == RemoveAt(old(staticArray[..]), i)
      ensures staticArray[arrayCapacity - 1] == old(staticArray[arrayCapacity - 1])
    {
      forall k | i <= k < arrayCapacity - 1 {
        staticArray[k] := staticArray[k + 1];
      }
    }

    /** `remove_element`: a scan from the front; the first slot equal to
        `elem` is removed and `true` returned, otherwise nothing changes and
        the result is `false`. */
    method RemoveElement(elem: int) returns (found: bool)
      requires Valid()
      modifies this, staticArray
      ensures Valid()
      ensures staticArray == old(staticArray) && arrayCapacity == old(arrayCapacity)
      ensures found <==> elem in old(Elements())
      ensures found ==>
                && userLen == old(userLen) - 1
                && Elements() == RemoveAt(old(Elements()), IndexOf(old(Elements()), elem))
                && staticArray[..arrayCapacity - 1] == RemoveAt(old(staticArray[..]), IndexOf(old(Elements()), elem))
                && staticArray[arrayCapacity - 1] == old(staticArray[arrayCapacity - 1])
      ensures !found ==> userLen == old(userLen) && staticArray[..] == old(staticArray[..])
    {
      for i := 0 to userLen
        invariant elem !in staticArray[..i]
      {
        if staticArray[i] == elem {
          assert staticArray[..i + 1] == staticArray[..i] + [elem];
          ghost var before := Elements();
          assert IndexOf(before, elem) == i by {
            assert before[..i] == staticArray[..i];
          }
          var _ := RemoveIndex(i);
          return true;
        }
        assert staticArray[..i + 1] == staticArray[..i] + [staticArray[i]];
      }
      assert Elements() == staticArray[..userLen];
      return false;
    }

    /** `reverse`: the symmetric pairs of the logical prefix are swapped,
        from the outside in; slots past `userLen` are left alone. */
    method Reverse()
      requires Valid()
      modifies staticArray
      ensures Valid()
      ensures Elements() == Reversed(old(Elements()))
      ensures staticArray[userLen..] == old(staticArray[userLen..])
    {
      var n := userLen;
      for i := 0 to n / 2
        invariant forall k :: 0 <= k < i ==>
                    staticArray[k] == old(staticArray[n - 1 - k]) && staticArray[n - 1 - k] == old(staticArray[k])
        invariant forall k :: i <= k < n - i ==> staticArray[k] == old(staticArray[k])
        invariant forall k :: n <= k < arrayCapacity ==> staticArray[k] == old(staticArray[k])
      {
        staticArray[i], staticArray[n - 1 - i] := staticArray[n - 1 - i], staticArray[i];
      }
      forall k | 0 <= k < n
        ensures Elements()[k] == Reversed(old(Elements()))[k]
      {
        ReversedAt(old(Elements()), k);
      }
    }

    /** `binary_search`: narrows `[left, right]` until a probe hits `key`.
        A non-negative result is an index holding `key`; on a sorted prefix,
        -1 means `key` does not occur. */
    method BinarySearch(key: int) returns (r: int)
      requires Valid()
      ensures -1 <= r < |Elements()|
      ensures 0 <= r ==> Elements()[r] == key
      ensures Sorted(Elements()) ==> (r == -1 <==> key !in Elements())
    {
      var left, right := 0, userLen - 1;
      while left <= right
        invariant 0 <= left <= right + 1 <= userLen
        invariant Sorted(Elements()) ==> forall k :: 0 <= k < left ==> staticArray[k] < key
        invariant Sorted(Elements()) ==> forall k :: right < k < userLen ==> staticArray[k] > key
      {
        var mid := (left + right) / 2;
        if staticArray[mid] == key {
          return mid;
        } else if staticArray[mid] < key {
          left := mid + 1;
        } else {
          right := mid - 1;
        }
      }
      return -1;
    }

    /** `sort`: the logical prefix is replaced by its ascending
        rearrangement; the slots past it are left alone. */
    method Sort()
      requires Valid()
      modifies staticArray
      ensures Valid()
      ensures Sorted(Elements()) && multiset(Elements()) == multiset(old(Elements()))
      ensures Elements() == SortedCopy(old(Elements()))
      ensures staticArray[userLen..] == old(staticArray[userLen..])
    {
      ghost var before := staticArray[..];
      var sorted := SortedCopy(staticArray[..userLen]);
      forall k | 0 <= k < userLen {
        staticArray[k] := sorted[k];
      }
      assert staticArray[..] == sorted + before[userLen..];
      assert Elements() == sorted;
    }

    /** `__iter__`: the elements in use, in index order. */
    method Iter() returns (items: seq<int32>)
      requires Valid()
      ensures items == Elements()
    {
      items := staticArray[..userLen];
    }
  }
}
