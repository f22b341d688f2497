// The timeline: the story elements of `#<id>` in their sibling order.
// `getStoryMorningGlory` reads a neighbour out of it, and `updateStorySeenPosition`
// moves the seen stories to its end.
module Timeline {
  import opened Common

  /** The index of the first timeline element whose `data-id` is `sid`. */
  function IndexOf(order: seq<StoryId>, sid: StoryId): (r: Option<nat>)
    ensures r.Some? ==> r.value < |order| && order[r.value] == sid
    ensures r.Some? ==> forall j :: 0 <= j < r.value ==> order[j] != sid
    ensures r.None? <==> sid !in order
  {
    if |order| == 0 then None
    else if order[0] == sid then Some(0)
    else match IndexOf(order[1..], sid)
      case None => None
      case Some(i) => Some(i + 1)
  }

  /** In a timeline without repeated ids, the index of an id is where it occurs. */
  lemma IndexOfDistinct(order: seq<StoryId>, j: nat)
    requires Distinct(order) && j < |order|
    ensures IndexOf(order, order[j]) == Some(j)
  {
  }

  /** What `getStoryMorningGlory(what)` finds: the story of the previous or next
      sibling element, or nothing; `TimelineElementMissing` is the TypeError raised
      when the current story has no timeline element. */
  datatype Neighbour = Adjacent(story: Option<StoryId>) | TimelineElementMissing

  /** The index of the sibling in direction `dir`, when there is one. */
  function SiblingIndex(i: nat, n: nat, dir: Dir): Option<nat>
  {
    if dir == Forward then (if i + 1 < n then Some(i + 1) else None)
    else (if 0 < i <= n then Some(i - 1) else None)
  }

  /** `getStoryMorningGlory`: an unset or empty current story has no neighbours; a
      sibling whose id has no story data counts as none (`zuck.data[storyId] || false`). */
  function Sibling(order: seq<StoryId>, known: set<StoryId>, current: Option<StoryId>, dir: Dir): (r: Neighbour)
    ensures current.None? || current.value == "" ==> r == Adjacent(None)
    ensures r.TimelineElementMissing? <==> current.Some? && current.value != "" && current.value !in order
    ensures r.Adjacent? && r.story.Some? ==>
              current.Some? && IndexOf(order, current.value).Some? &&
              var i := SiblingIndex(IndexOf(order, current.value).value, |order|, dir);
              i.Some? && i.value < |order| && order[i.value] == r.story.value && r.story.value in known
    ensures r == Adjacent(None) && current.Some? && current.value in order && current.value != "" ==>
              var i := SiblingIndex(IndexOf(order, current.value).value, |order|, dir);
              i.None? || (i.value < |order| && order[i.value] !in known)
  {
    match current
    case None => Adjacent(None)
    case Some(c) =>
      if c == "" then Adjacent(None)
      else match IndexOf(order, c)
        case None => TimelineElementMissing
        case Some(i) =>
          match SiblingIndex(i, |order|, dir)
          case None => Adjacent(None)
          case Some(j) => if order[j] in known then Adjacent(Some(order[j])) else Adjacent(None)
  }

  /** Going to the next story and then asking for the previous one leads back, when
      every story of the timeline has data. */
  lemma SiblingRoundTrip(order: seq<StoryId>, known: set<StoryId>, c: StoryId, n: StoryId)
    requires Distinct(order) && forall x :: x in order ==> x in known
    requires Sibling(order, known, Some(c), Forward) == Adjacent(Some(n))
    requires n != ""
    ensures Sibling(order, known, Some(n), Backward) == Adjacent(Some(c))
  {
    var i := IndexOf(order, c).value;
    IndexOfDistinct(order, i + 1);
  }

  /** The elements of `order` whose membership in `seen` is `keep`, in order. */
  function Filter(order: seq<StoryId>, seen: set<StoryId>, keep: bool): (r: seq<StoryId>)
    ensures |r| <= |order|
    ensures forall x :: x in r <==> x in order && (x in seen) == keep
  {
    if |order| == 0 then []
    else if (order[0] in seen) == keep then [order[0]] + Filter(order[1..], seen, keep)
    else Filter(order[1..], seen, keep)
  }

  /** `updateStorySeenPosition` without the `reactive` option: every seen story element
      is detached and appended again, in timeline order. */
  function SeenToEnd(order: seq<StoryId>, seen: set<StoryId>): seq<StoryId>
  {
    Filter(order, seen, false) + Filter(order, seen, true)
  }

  lemma {:induction false} FilterAppend(a: seq<StoryId>, b: seq<StoryId>, seen: set<StoryId>, keep: bool)
    ensures Filter(a + b, seen, keep) == Filter(a, seen, keep) + Filter(b, seen, keep)
  {
    if |a| > 0 {
      assert (a + b)[1..] == a[1..] + b;
      FilterAppend(a[1..], b, seen, keep);
    } else {
      assert a + b == b;
    }
  }

  lemma {:induction false} FilterOfFiltered(order: seq<StoryId>, seen: set<StoryId>, keep: bool, other: bool)
    ensures Filter(Filter(order, seen, keep), seen, other) == if keep == other then Filter(order, seen, keep) else []
  {
    if |order| > 0 {
      FilterOfFiltered(order[1..], seen, keep, other);
      if (order[0] in seen) == keep {
        var f := Filter(order, seen, keep);
        assert f[1..] == Filter(order[1..], seen, keep);
      }
    }
  }

  lemma {:induction false} FilterMultiset(order: seq<StoryId>, seen: set<StoryId>)
    ensures multiset(Filter(order, seen, false)) + multiset(Filter(order, seen, true)) == multiset(order)
  {
    if |order| > 0 {
      FilterMultiset(order[1..], seen);
      assert order == [order[0]] + order[1..];
    }
  }

  lemma {:induction false} FilterDistinct(order: seq<StoryId>, seen: set<StoryId>, keep: bool)
    requires Distinct(order)
    ensures Distinct(Filter(order, seen, keep))
  {
    if |order| > 0 {
      assert Distinct(order[1..]);
      FilterDistinct(order[1..], seen, keep);
      assert order[0] !in order[1..];
    }
  }

  /** The reorder is a permutation of the timeline. */
  lemma SeenToEndPermutes(order: seq<StoryId>, seen: set<StoryId>)
    ensures multiset(SeenToEnd(order, seen)) == multiset(order)
  {
    FilterMultiset(order, seen);
  }

  /** After the reorder no seen story precedes an unseen one. */
  lemma SeenToEndPartitions(order: seq<StoryId>, seen: set<StoryId>)
    ensures forall i, j :: 0 <= i < j < |SeenToEnd(order, seen)| && SeenToEnd(order, seen)[i] in seen ==>
              SeenToEnd(order, seen)[j] in seen
  {
    var u, v := Filter(order, seen, false), Filter(order, seen, true);
    var r := SeenToEnd(order, seen);
    forall i, j | 0 <= i < j < |r| && r[i] in seen
      ensures r[j] in seen
    {
      assert r[j] == v[j - |u|] && r[j] in v;
    }
  }

  /** The unseen stories keep their relative order, and so do the seen ones. */
  lemma SeenToEndStable(order: seq<StoryId>, seen: set<StoryId>, keep: bool)
    ensures Filter(SeenToEnd(order, seen), seen, keep) == Filter(order, seen, keep)
  {
    FilterAppend(Filter(order, seen, false), Filter(order, seen, true), seen, keep);
    FilterOfFiltered(order, seen, false, keep);
    FilterOfFiltered(order, seen, true, keep);
  }

  /** Reordering an already reordered timeline changes nothing. */
  lemma SeenToEndIdempotent(order: seq<StoryId>, seen: set<StoryId>)
    ensures SeenToEnd(SeenToEnd(order, seen), seen) == SeenToEnd(order, seen)
  {
    SeenToEndStable(order, seen, false);
    SeenToEndStable(order, seen, true);
  }

  /** A timeline without repeated ids keeps that property. */
  lemma SeenToEndDistinct(order: seq<StoryId>, seen: set<StoryId>)
    requires Distinct(order)
    ensures Distinct(SeenToEnd(order, seen))
  {
    var u, v := Filter(order, seen, false), Filter(order, seen, true);
    FilterDistinct(order, seen, false);
    FilterDistinct(order, seen, true);
    var r := u + v;
    forall i, j | 0 <= i < j < |r|
      ensures r[i] != r[j]
    {
      if j < |u| {
      } else if i >= |u| {
        assert r[i] == v[i - |u|] && r[j] == v[j - |u|];
      } else {
        assert r[i] in u && r[j] in v;
      }
    }
  }
}
