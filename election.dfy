/** Choosing the music backend: every registered backend has a priority and the result of
    its last availability probe; the entries are sorted by priority, highest first, with
    Python's stable `sorted(..., reverse=True)`, and the first available one is elected. */
module Election {
  import opened Wrappers

  /** A registered backend's entry (`{"id", "priority", "accessibility"}`). */
  datatype ApiInfo = ApiInfo(id: string, priority: int, accessibility: bool)

  predicate SortedDesc(s: seq<ApiInfo>) {
    forall i, j | 0 <= i < j < |s| :: s[i].priority >= s[j].priority
  }

  /** Puts `x` in front of the first entry whose priority is not higher, so that `x` stays
      ahead of the entries of equal priority that came after it in the input. */
  function Insert(x: ApiInfo, t: seq<ApiInfo>): (r: seq<ApiInfo>)
    ensures multiset(r) == multiset(t) + multiset{x}
    ensures |r| == |t| + 1
  {
    if t == [] || t[0].priority <= x.priority then [x] + t
    else
      assert t == [t[0]] + t[1..];
      [t[0]] + Insert(x, t[1..])
  }

  lemma {:induction false} InsertKeepsSorted(x: ApiInfo, t: seq<ApiInfo>)
    requires SortedDesc(t)
    ensures SortedDesc(Insert(x, t))
  {
    if t != [] && t[0].priority > x.priority {
      var rest := Insert(x, t[1..]);
      InsertKeepsSorted(x, t[1..]);
      forall k | 0 <= k < |rest| ensures rest[k].priority <= t[0].priority {
        assert rest[k] in multiset(rest);
        if rest[k] != x {
          assert rest[k] in multiset(t[1..]);
          var j :| 0 <= j < |t[1..]| && t[1..][j] == rest[k];
          assert t[j + 1] == rest[k];
        }
      }
    }
  }

  /** `sorted(items, key=priority, reverse=True)`: a stable sort, highest priority first. */
  function SortDesc(s: seq<ApiInfo>): (r: seq<ApiInfo>)
    ensures multiset(r) == multiset(s)
    ensures |r| == |s|
    ensures SortedDesc(r)
  {
    if s == [] then []
    else
      assert s == [s[0]] + s[1..];
      InsertKeepsSorted(s[0], SortDesc(s[1..]));
      Insert(s[0], SortDesc(s[1..]))
  }

  /** The first available entry in the given order. */
  function FirstAccessible(s: seq<ApiInfo>): (r: Option<ApiInfo>)
    ensures r.Some? ==> r.value in s && r.value.accessibility
    ensures r.None? <==> forall i | 0 <= i < |s| :: !s[i].accessibility
  {
    if s == [] then None
    else if s[0].accessibility then Some(s[0])
    else FirstAccessible(s[1..])
  }

  /** The reference choice: an available entry of the highest priority among the available
      ones, the earliest in the input on a tie. */
  function Best(s: seq<ApiInfo>): (b: Option<ApiInfo>)
    ensures b.Some? ==> b.value in s && b.value.accessibility
    ensures b.None? <==> forall i | 0 <= i < |s| :: !s[i].accessibility
    ensures b.Some? ==> forall i | 0 <= i < |s| && s[i].accessibility :: s[i].priority <= b.value.priority
  {
    if s == [] then None
    else
      var rest := Best(s[1..]);
      assert forall i | 1 <= i < |s| :: s[i] == s[1..][i - 1];
      if s[0].accessibility && (rest.None? || rest.value.priority <= s[0].priority) then Some(s[0])
      else rest
  }

  /** On a tie the reference choice is the earliest: every available entry before it has a
      strictly lower priority. */
  lemma {:induction false} BestIsEarliest(s: seq<ApiInfo>)
    requires Best(s).Some?
    ensures exists k | 0 <= k < |s| ::
      && s[k] == Best(s).value
      && (forall i | 0 <= i < k && s[i].accessibility :: s[i].priority < Best(s).value.priority)
  {
    var rest := Best(s[1..]);
    if !(s[0].accessibility && (rest.None? || rest.value.priority <= s[0].priority)) {
      BestIsEarliest(s[1..]);
      var k :|
        && 0 <= k < |s| - 1 && s[1..][k] == rest.value
        && (forall i | 0 <= i < k && s[1..][i].accessibility :: s[1..][i].priority < rest.value.priority);
      assert s[k + 1] == rest.value;
      forall i | 0 <= i < k + 1 && s[i].accessibility ensures s[i].priority < rest.value.priority {
        if i > 0 {
          assert s[i] == s[1..][i - 1];
        }
      }
    } else {
      assert s[0] == Best(s).value;
    }
  }

  /** Inserting into a sorted list changes its first available entry only to put `x` there,
      and only when `x` is available and its priority is at least that entry's. */
  lemma {:induction false} FirstAccessibleInsert(x: ApiInfo, t: seq<ApiInfo>)
    requires SortedDesc(t)
    ensures var f := FirstAccessible(t);
      FirstAccessible(Insert(x, t)) ==
        if x.accessibility && (f.None? || f.value.priority <= x.priority) then Some(x) else f
  {
    if t != [] {
      if t[0].priority <= x.priority {
        var f := FirstAccessible(t);
        if f.Some? {
          var j :| 0 <= j < |t| && t[j] == f.value;
          assert t[0].priority >= t[j].priority;
        }
        assert Insert(x, t) == [x] + t;
        assert ([x] + t)[1..] == t;
      } else if !t[0].accessibility {
        FirstAccessibleInsert(x, t[1..]);
        assert Insert(x, t)[1..] == Insert(x, t[1..]);
      }
    }
  }

  /** Electing from the stably sorted entries picks exactly the reference choice. */
  lemma {:induction false} SortedElectionIsBest(s: seq<ApiInfo>)
    ensures FirstAccessible(SortDesc(s)) == Best(s)
  {
    if s != [] {
      SortedElectionIsBest(s[1..]);
      FirstAccessibleInsert(s[0], SortDesc(s[1..]));
    }
  }
}
