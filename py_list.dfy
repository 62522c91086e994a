/** The two Python list primitives whose index handling the playlist store inherits:
    `list.pop(i)`, which accepts negative indices and raises outside `[-len, len)`, and
    `list.insert(i, x)`, which clamps its index and never raises. */
module PyList {
  import opened Wrappers

  /** The position `list.pop(i)` removes from a list of length `len`, or `None` where it
      raises `IndexError` (an empty list included). A negative index counts from the end. */
  function PopIndex(len: nat, i: int): (k: Option<nat>)
    ensures k.Some? <==> -(len as int) <= i < len
    ensures k.Some? ==> k.value < len && k.value == i % len
  {
    if -(len as int) <= i < len then Some(if i < 0 then i + len else i) else None
  }

  /** The list without its k-th element. */
  function RemoveAt<T>(s: seq<T>, k: nat): (r: seq<T>)
    requires k < |s|
    ensures |r| == |s| - 1
    ensures multiset(r) + multiset{s[k]} == multiset(s)
  {
    assert s == s[..k] + [s[k]] + s[k + 1..];
    s[..k] + s[k + 1..]
  }

  /** The position `list.insert(i, x)` puts `x` at in a list of length `len`: a negative index
      counts from the end, and anything outside the list is moved to the nearest end. */
  function ClampIndex(len: nat, i: int): (c: nat)
    ensures c <= len
    ensures 0 <= i <= len ==> c == i
    ensures -(len as int) <= i < 0 ==> c == i + len
    ensures i < -(len as int) ==> c == 0
    ensures i > len ==> c == len
  {
    if i < 0 then (if i + len < 0 then 0 else i + len)
    else if i > len then len
    else i
  }

  /** `list.insert(i, x)`: one element longer, `x` at the clamped position, nothing lost. */
  function InsertAt<T>(s: seq<T>, i: int, x: T): (r: seq<T>)
    ensures |r| == |s| + 1
    ensures r[ClampIndex(|s|, i)] == x
    ensures multiset(r) == multiset(s) + multiset{x}
  {
    var c := ClampIndex(|s|, i);
    assert s == s[..c] + s[c..];
    s[..c] + [x] + s[c..]
  }

  /** Popping the position an insert used gives the list back: `insert` never fails and is
      undone by `pop`. */
  lemma PopUndoesInsert<T>(s: seq<T>, i: int, x: T)
    ensures PopIndex(|s| + 1, ClampIndex(|s|, i)) == Some(ClampIndex(|s|, i))
    ensures RemoveAt(InsertAt(s, i, x), ClampIndex(|s|, i)) == s
  {
    var c := ClampIndex(|s|, i);
    var r := InsertAt(s, i, x);
    assert r[..c] == s[..c];
    assert r[c + 1..] == s[c..];
    assert s == s[..c] + s[c..];
  }

  /** `insert(-1, x)` on a non-empty list puts `x` just before the last element. */
  lemma InsertAtMinusOne<T>(s: seq<T>, x: T)
    requires |s| > 0
    ensures InsertAt(s, -1, x) == s[..|s| - 1] + [x, s[|s| - 1]]
  {
    assert s[|s| - 1..] == [s[|s| - 1]];
  }

  /** `pop(-1)` removes the last element. */
  lemma PopMinusOneIsLast<T>(s: seq<T>)
    requires |s| > 0
    ensures PopIndex(|s|, -1) == Some(|s| - 1)
    ensures RemoveAt(s, |s| - 1) == s[..|s| - 1]
  {
  }
}
