# Dynamic array of 32-bit integers, modelled in Dafny

This project models `DynamicArray` from `dynamic_array.py`. It is a growable
array of 32-bit signed integers with three fields:

- `static_array`: a fixed-size backing buffer;
- `array_capacity`: the size allocated for that buffer;
- `user_len`: the number of slots in use.

It supports append with doubling growth, bounds-checked reads and writes,
removal by index and by value, in-place reversal, binary search and sorting
of the slots in use.

The model keeps the source's imperative form. `DynamicArrays.DynamicArray`
is a class with the fields `staticArray: array<int32>`, `arrayCapacity` and
`userLen`. `Valid()` is its object invariant:
`userLen <= arrayCapacity == staticArray.Length`. The ghost function
`Elements()` is `staticArray[..userLen]`. Every state-changing method
states its effect on `Elements()` and on every slot of the buffer,
including the slots past `userLen`.

Exceptions are return values. `ValueError` and `IndexError` are the values
of `Error`. A raising operation returns `Err(...)` (when it has a result)
or `Fail(...)` (when it has none), and the error path says that nothing
changed.

Files:

- `array_spec.dfy` (module `ArraySpec`): value-level definitions and lemmas.
  These are the `int32` element type, sortedness, removal at an index,
  reversal, first occurrence and an insertion sort standing for `sorted()`.
- `dynamic_array.dfy` (module `DynamicArrays`): the class and its methods.
- `scenarios.dfy` (module `Scenarios`): client methods that replay the unit
  tests in `test_dynamic_array.py` through the contracts alone.
  They also exhibit the as-written defects listed under Findings.

The code and its tests disagree on three points:

- `__setitem__` raises after a successful write;
- `remove_index` raises after a successful removal;
- `remove_index` decrements the capacity without shrinking the buffer.

The model follows the tests: `Set` and `RemoveIndex` are the corrected
operations, used by the rest of the model. The as-written behaviour is
kept beside them (see Findings).

Removal is easily read as shifting only the elements in use. The code's
slice assignment `static_array[i:-1] = static_array[i+1:]` shifts the whole
buffer, up to the capacity, and the last slot keeps its value. The model
follows the code (`ShiftLeft`).

## Model

| member | source | states |
|---|---|---|
| ArraySpec.RemoveAtMultiset | dynamic_array.py:66 | closing the gap at `i` drops exactly one copy of the removed element and keeps every other element |
| ArraySpec.ReversedAt | dynamic_array.py:81-84 | slot `k` of the reversal holds the original's element `n-1-k`, for a sequence of length `n`: the pair the swap loop exchanges |
| ArraySpec.ReversedTwice | dynamic_array.py:81-84 | reversing twice restores the original contents |
| ArraySpec.ReversedMultiset | dynamic_array.py:81-84 | reversal is a permutation: no element is lost or duplicated |
| ArraySpec.IndexOf | dynamic_array.py:73-78 | the scan's result is -1 exactly when the value is absent, and otherwise an index holding it with no earlier occurrence |
| ArraySpec.Insert | dynamic_array.py:103 | inserting into a sorted sequence keeps it sorted and adds exactly that one element |
| ArraySpec.SortedCopy | dynamic_array.py:103 | the stand-in for `sorted()` returns an ascending permutation of its input, of the same length |
| ArraySpec.SortedUnique | dynamic_array.py:103 | two sorted permutations of the same elements are equal, so any correct sort yields the same prefix as `sorted()` |
| DynamicArrays.GrownCapacity | dynamic_array.py:51-52 | the grown capacity is strictly larger than the old one: exactly 1 when the old one is 0, exactly double otherwise |
| DynamicArrays.DynamicArray.constructor | dynamic_array.py:13-15 | a valid array with the given capacity, no elements and an all-zero buffer |
| DynamicArrays.DynamicArray.Create | dynamic_array.py:7-15 | a missing capacity means 8; a negative one gives `ValueError` and no object; otherwise a fresh empty array of that capacity with a zero buffer |
| DynamicArrays.DynamicArray.FromList | dynamic_array.py:17-26 | a missing list gives `ValueError`; otherwise length and capacity both equal the list's length and the buffer equals the list |
| DynamicArrays.DynamicArray.Size | dynamic_array.py:28-29 | the size is the number of logical elements |
| DynamicArrays.DynamicArray.IsEmpty | dynamic_array.py:32-33 | empty exactly when there are no logical elements |
| DynamicArrays.DynamicArray.Get | dynamic_array.py:36-40 | succeeds exactly for `0 <= index < size` with that element; otherwise `IndexError` |
| DynamicArrays.DynamicArray.Set | dynamic_array.py:43-47 | in range: returns normally and only that slot changes; out of range: `IndexError` and nothing changes |
| DynamicArrays.DynamicArray.SetItemAsWritten | dynamic_array.py:43-47 | as written: an in-range index is written, yet `IndexError` is raised for every index |
| DynamicArrays.DynamicArray.AddElement | dynamic_array.py:50-55 | contents gain `elem` at the end; a full buffer is first replaced by a fresh one of the grown capacity holding the old prefix, then zeros; otherwise only slot `userLen` changes |
| DynamicArrays.DynamicArray.Resize | dynamic_array.py:58-62 | a fresh buffer of the new capacity that starts with the logical prefix and is zero after it; the length is unchanged |
| DynamicArrays.DynamicArray.ShiftLeft | dynamic_array.py:66 | every slot from `i` to the end of the buffer takes its right neighbour's value; the last slot keeps its value |
| DynamicArrays.DynamicArray.RemoveIndex | dynamic_array.py:64-70 | in range: contents lose exactly the element at the index, length drops by one, capacity and buffer identity stay; otherwise `IndexError` and nothing changes |
| DynamicArrays.DynamicArray.RemoveIndexAsWritten | dynamic_array.py:64-70 | as written: in range, the whole buffer shifts left past the index (last slot kept) and the length drops by one, but the capacity drops below the buffer size, breaking the invariant; `IndexError` is raised for every index |
| DynamicArrays.DynamicArray.RemoveElement | dynamic_array.py:73-78 | returns true exactly when the value occurs, and then removes only its first occurrence: the length drops by one and the whole buffer shifts left past that index, last slot kept; otherwise nothing changes |
| DynamicArrays.DynamicArray.Reverse | dynamic_array.py:81-84 | the logical prefix becomes its reversal; slots past it, length and capacity are unchanged |
| DynamicArrays.DynamicArray.BinarySearch | dynamic_array.py:87-99 | the result is -1 or an in-range index holding the key; on a sorted prefix, -1 exactly when the key is absent; nothing changes |
| DynamicArrays.DynamicArray.Sort | dynamic_array.py:102-103 | the logical prefix becomes sorted and a permutation of the old one, equal to `sorted()` of it; slots past it are unchanged |
| DynamicArrays.DynamicArray.Iter | dynamic_array.py:105-106 | iteration yields exactly the logical elements in index order |
| Scenarios.DefaultConstruction | test_dynamic_array.py:8-13 | the default array has size 0, capacity 8 and eight zero slots; it is empty until one element is added |
| Scenarios.ExplicitCapacity | test_dynamic_array.py:15-26 | capacity 20 gives size 0, capacity 20 and twenty zero slots; capacity -10 gives `ValueError` |
| Scenarios.AppendGrows | test_dynamic_array.py:28-45 | two appends to capacity 2 give size 2 with elements 1 and 2; a third gives size 3, capacity 4, and element 2 is 3 |
| Scenarios.FromListRoundTrip | test_dynamic_array.py:151-164 | for every list, building from it and iterating gives the list back, with size and capacity equal to its length |
| Scenarios.Indexing | test_dynamic_array.py:47-70 | reads of 0..2 give 1, 2, 3 and index 3 gives `IndexError`; a write at 1 succeeds and is read back; a write at 3 gives `IndexError` |
| Scenarios.RemoveByIndex | test_dynamic_array.py:72-84 | removing index 1 from `[1, 2, 3]` leaves `[1, 3]`; removing index 3 gives `IndexError` |
| Scenarios.RemoveByValue | test_dynamic_array.py:86-100 | removing 2 returns true and leaves `[1, 3]`; removing 99 returns false and leaves `[1, 2, 3]` |
| Scenarios.ReverseExamples | test_dynamic_array.py:102-115 | `[1, 2, 3, 4]` reverses to `[4, 3, 2, 1]` and an empty array stays empty |
| Scenarios.SearchExamples | test_dynamic_array.py:117-127 | in `[1, 2, 3, 4, 5]`, 3 is found at index 2 and 99 gives -1 |
| Scenarios.SortExample | test_dynamic_array.py:129-136 | `[4, 3, 1, 2]` sorts to `[1, 2, 3, 4]` |
| Scenarios.SetItemRaisesAfterWrite | test_dynamic_array.py:60-64 | as written, `arr[1] = 99` on `[1, 2, 3]` raises `IndexError` even though slot 1 now holds 99 |
| Scenarios.RemoveIndexRaisesAndShrinksCapacity | test_dynamic_array.py:72-78 | as written, `remove_index(1)` on `[1, 2, 3]` removes the element, raises `IndexError`, and leaves capacity 2 over a 3-slot buffer |

## Left out

- `__str__` and `__repr__` (dynamic_array.py:108-112) are not modelled. They only format the list for display.
- The `__main__` demonstration block (dynamic_array.py:115-127) is not modelled. It only prints.
- The algorithm behind `sorted()` (Timsort) is not modelled. `SortedCopy` is an insertion sort, and `SortedUnique` shows that every correct sort gives the same result.
- `OverflowError` for values outside 32 bits, raised by `array('i')`, is not modelled. Stored values have the type `int32`, so callers must supply values in that range.
- Lazy iteration, and mutation during iteration, are not modelled. `Iter` returns the logical elements as a sequence.
- Exception messages (`"Illegal Capacity: …"`, `"List cannot be None"`, `"Index out of range"`) are not modelled. Only the exception's class is.
- `remove_element` as written: it calls the as-written `remove_index`, so it would raise `IndexError` after removing a match. `RemoveElement` is modelled over the corrected `RemoveIndex` only.

## Findings

| source | as written | input that shows it | evidently intended | confidence | as-written member | corrected member |
|---|---|---|---|---|---|---|
| dynamic_array.py:43-47 | after an in-range write, control falls through to `raise IndexError` | `from_list([1, 2, 3])`, then `arr[1] = 99` | return normally after the write (test_dynamic_array.py:60-64) | high; not executed | Scenarios.SetItemRaisesAfterWrite | DynamicArrays.DynamicArray.Set |
| dynamic_array.py:64-70 | after an in-range removal, control falls through to `raise IndexError` | `from_list([1, 2, 3])`, then `remove_index(1)` | return normally after the removal (test_dynamic_array.py:72-78, 86-93) | high; not executed | Scenarios.RemoveIndexRaisesAndShrinksCapacity | DynamicArrays.DynamicArray.RemoveIndex |
| dynamic_array.py:68 | removal decrements `array_capacity` while the buffer keeps its size | `from_list([1, 2, 3])`, then `remove_index(1)`: capacity 2, buffer of 3 slots | capacity unchanged, so it still equals the buffer size | high; not executed | DynamicArrays.DynamicArray.RemoveIndexAsWritten | DynamicArrays.DynamicArray.RemoveIndex |
