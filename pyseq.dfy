/** Python's indexing and slicing of a list, with negative positions counted from the end. */
module PySeq {
  import opened Wrappers

  /** Where a slice bound `i` lands in a list of length `len`: negative values count from
      the end, and the result is clamped into `[0, len]`. */
  function SliceBound(i: int, len: nat): (r: nat)
    ensures r <= len
  {
    if i < 0 then (if i + len < 0 then 0 else i + len)
    else if i > len then len
    else i
  }

  /** `s[i:j]` in Python. */
  function Slice<T>(s: seq<T>, i: int, j: int): (r: seq<T>)
    ensures SliceBound(i, |s|) <= SliceBound(j, |s|) ==>
              |r| == SliceBound(j, |s|) - SliceBound(i, |s|)
    ensures SliceBound(j, |s|) < SliceBound(i, |s|) ==> r == []
    ensures forall k :: 0 <= k < |r| ==> r[k] == s[SliceBound(i, |s|) + k]
  {
    var a, b := SliceBound(i, |s|), SliceBound(j, |s|);
    if a < b then s[a..b] else []
  }

  /** The position `s[i]` reads in Python, or `None` where it raises `IndexError`. */
  function Index(i: int, len: nat): (r: Option<nat>)
    ensures r.Some? <==> -(len as int) <= i < len
    ensures r.Some? ==> r.value < len
    ensures r.Some? && i >= 0 ==> r.value == i
    ensures r.Some? && i < 0 ==> r.value == i + len
  {
    if 0 <= i < len then Some(i)
    else if -(len as int) <= i < 0 then Some(i + len)
    else None
  }
}
