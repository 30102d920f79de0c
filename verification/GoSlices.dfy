/**
 Go slices over real arrays: a header is a backing array, a length and a
 capacity. Every slice in the modelled code starts at index 0 of its array.
*/
module GoSlices {
  datatype Slice<T> = Slice(arr: array<T>, len: nat, cap: nat) {
    ghost predicate Valid() {
      len <= cap <= arr.Length
    }

    ghost function Contents(): (s: seq<T>)
      requires Valid()
      reads arr
      ensures |s| == len
    {
      arr[..len]
    }

    // s[:len(s):len(s)]
    function Frozen(): Slice<T> {
      Slice(arr, len, len)
    }
  }

  // make([]T, 0, cap)
  method Make<T(0)>(cap: nat) returns (r: Slice<T>)
    ensures r.Valid() && fresh(r.arr)
    ensures r.len == 0 && r.cap == cap
  {
    var cells := new T[cap];
    r := Slice(cells, 0, cap);
  }

  // append(s, x): fills the next spare cell when there is one, and otherwise
  // moves to a new array. How much room a new array has to spare is the
  // runtime's choice.
  method Append<T(0)>(s: Slice<T>, x: T, spare: nat) returns (r: Slice<T>)
    requires s.Valid()
    modifies if s.len < s.cap then {s.arr} else {}
    ensures r.Valid() && r.Contents() == old(s.Contents()) + [x]
    ensures s.len < s.cap ==> r == s.(len := s.len + 1)
    ensures s.len == s.cap ==> fresh(r.arr) && r.cap == s.len + 1 + spare
    ensures forall i | 0 <= i < s.arr.Length && i != s.len :: s.arr[i] == old(s.arr[i])
  {
    if s.len < s.cap {
      s.arr[s.len] := x;
      r := s.(len := s.len + 1);
    } else {
      var grown := new T[s.len + 1 + spare];
      for i := 0 to s.len
        invariant grown[..i] == s.arr[..i]
      {
        grown[i] := s.arr[i];
      }
      grown[s.len] := x;
      r := Slice(grown, s.len + 1, s.len + 1 + spare);
    }
  }
}
