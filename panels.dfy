// Story data and the `.story-viewer` panels of the modal slider. A panel is the
// element `createStoryViewer` builds: its role classes, its `muted`/`stopped`/`paused`
// classes and, per item, the `seen`/`active` classes shared by the item's pointer
// (`.slides-pointers [data-index]`) and body (`.item[data-index]`), which every
// handler updates together. `uid` is the element's identity, so that a panel that
// has been removed from the slider can still be told apart from one that replaced it.
module Panels {
  import opened Common

  /** One entry of `zuck.data[id].items`: whether its `data-type` is `'video'`, whether
      its rendered body contains a `<video>` element, and its `seen` flag. */
  datatype StoryItem = StoryItem(isVideo: bool, hasVideo: bool, seen: bool)

  /** `zuck.data[id]`. */
  datatype Story = Story(seen: bool, currentItem: nat, items: seq<StoryItem>)

  /** The classes of item `i` of a panel. */
  datatype ItemView = ItemView(isVideo: bool, hasVideo: bool, seen: bool, active: bool)

  /** A `.story-viewer` element. */
  datatype Panel = Panel(uid: nat, story: StoryId, roles: set<Role>, items: seq<ItemView>,
                         muted: bool, stopped: bool, paused: bool)

  /** The `<video>` element inside item `index` of panel `uid`. */
  datatype VideoRef = VideoRef(uid: nat, index: nat)

  // ---------------------------------------------------------------------------
  // Rendering (the item loop of `createStoryViewer` and its two templates)

  /** What the item loop of `createStoryViewer` leaves in `storyData.items`: every item
      before `currentItem` is marked seen. */
  function MarkSeenBefore(items: seq<StoryItem>, cur: nat): (r: seq<StoryItem>)
    ensures |r| == |items|
  {
    seq(|items|, i requires 0 <= i < |items| => if i < cur then items[i].(seen := true) else items[i])
  }

  /** The classes the pointer and body templates give item `i`: `seen` when the item's
      `seen` is true, `active` when `i` is the current item. */
  function Views(items: seq<StoryItem>, cur: nat): (r: seq<ItemView>)
    ensures |r| == |items|
  {
    seq(|items|, i requires 0 <= i < |items| =>
      ItemView(items[i].isVideo, items[i].hasVideo, items[i].seen, i == cur))
  }

  /** After the loop every item before the current one is seen, and the others are
      exactly as they were. */
  lemma MarkSeenBeforeMeaning(items: seq<StoryItem>, cur: nat)
    ensures forall i :: 0 <= i < |items| && i < cur ==> MarkSeenBefore(items, cur)[i].seen
    ensures forall i :: cur <= i < |items| ==> MarkSeenBefore(items, cur)[i] == items[i]
    ensures forall i :: 0 <= i < |items| ==>
              MarkSeenBefore(items, cur)[i] == items[i].(seen := MarkSeenBefore(items, cur)[i].seen)
  {
  }

  /** Rendering a story twice marks nothing more the second time. */
  lemma MarkSeenBeforeIdempotent(items: seq<StoryItem>, cur: nat)
    ensures MarkSeenBefore(MarkSeenBefore(items, cur), cur) == MarkSeenBefore(items, cur)
  {
  }

  /** The rendered panel shows exactly one active item when the current index is in
      range, and none otherwise; before it every item shows as seen. */
  lemma ViewsOfMarked(items: seq<StoryItem>, cur: nat)
    ensures forall i :: 0 <= i < |items| ==> (Views(MarkSeenBefore(items, cur), cur)[i].active <==> i == cur)
    ensures forall i :: 0 <= i < |items| && i < cur ==> Views(MarkSeenBefore(items, cur), cur)[i].seen
    ensures forall i :: 0 <= i < |items| ==>
              Views(MarkSeenBefore(items, cur), cur)[i].seen == (items[i].seen || i < cur)
  {
  }

  /** `zuck.data[id].items` as `parseItems` reads them back from the timeline markup
      that `zuck.addItem` wrote: each keeps its `data-type` and media, but the
      `timelineStoryItem` template records no `seen`. */
  function Reparsed(items: seq<StoryItem>): (r: seq<StoryItem>)
    ensures |r| == |items|
  {
    seq(|items|, i requires 0 <= i < |items| => items[i].(seen := false))
  }

  /** Two item lists that differ at most in their `seen` flags. */
  predicate SameButSeen(a: seq<StoryItem>, b: seq<StoryItem>)
  {
    |a| == |b| && forall i :: 0 <= i < |a| ==> b[i] == a[i].(seen := b[i].seen)
  }

  /** Reading the items back forgets their `seen` flags and nothing else, and a story
      rendered from them afterwards shows exactly the items before the current one as
      seen. */
  lemma ReparsedMeaning(items: seq<StoryItem>, cur: nat)
    ensures SameButSeen(items, Reparsed(items))
    ensures forall i :: 0 <= i < |items| ==> !Reparsed(items)[i].seen
    ensures forall i :: 0 <= i < |items| ==> (Views(MarkSeenBefore(Reparsed(items), cur), cur)[i].seen <==> i < cur)
  {
  }

  // ---------------------------------------------------------------------------
  // Item navigation (the callback of `zuck.navigateItem`)

  /** The class changes of `navigateItemCallback`: the departing item gains `seen` going
      forward and loses it going back, and loses `active`; the target loses `seen` and
      gains `active`. */
  function StepFlags(items: seq<ItemView>, cur: nat, target: nat, dir: Dir): (r: seq<ItemView>)
    requires cur < |items| && target < |items|
    ensures |r| == |items|
  {
    var departed := items[cur := items[cur].(seen := dir == Forward, active := false)];
    departed[target := departed[target].(seen := false, active := true)]
  }

  /** The flags of the two items involved, and no other item touched. */
  lemma StepFlagsEffect(items: seq<ItemView>, cur: nat, dir: Dir)
    requires cur < |items|
    requires var t := if dir == Forward then cur + 1 else cur - 1; 0 <= t < |items|
    ensures var t := if dir == Forward then cur + 1 else cur - 1;
            var r := StepFlags(items, cur, t, dir);
            r[cur].seen == (dir == Forward) && !r[cur].active &&
            !r[t].seen && r[t].active &&
            (forall i :: 0 <= i < |items| && i != cur && i != t ==> r[i] == items[i]) &&
            r[cur].isVideo == items[cur].isVideo && r[cur].hasVideo == items[cur].hasVideo &&
            r[t].isVideo == items[t].isVideo && r[t].hasVideo == items[t].hasVideo
  {
  }

  /** When only the current item was active, only the target is active afterwards. */
  lemma StepFlagsKeepsOneActive(items: seq<ItemView>, cur: nat, target: nat, dir: Dir)
    requires cur < |items| && target < |items|
    requires forall i :: 0 <= i < |items| ==> (items[i].active <==> i == cur)
    ensures forall i :: 0 <= i < |items| ==> (StepFlags(items, cur, target, dir)[i].active <==> i == target)
  {
  }

  /** When every item before the current one is seen, every item before the target is
      seen afterwards, in both directions. */
  lemma StepFlagsKeepsSeenPrefix(items: seq<ItemView>, cur: nat, dir: Dir)
    requires cur < |items|
    requires var t := if dir == Forward then cur + 1 else cur - 1; 0 <= t < |items|
    requires forall i :: 0 <= i < cur ==> items[i].seen
    ensures var t := if dir == Forward then cur + 1 else cur - 1;
            forall i :: 0 <= i < t ==> StepFlags(items, cur, t, dir)[i].seen
  {
  }

  /** Stepping forward and then back restores the classes, except that the item
      visited ahead is no longer marked seen. */
  lemma StepForwardThenBack(items: seq<ItemView>, cur: nat)
    requires cur + 1 < |items|
    requires items[cur].active && !items[cur].seen
    ensures StepFlags(StepFlags(items, cur, cur + 1, Forward), cur + 1, cur, Backward) ==
            items[cur + 1 := items[cur + 1].(seen := false, active := false)]
  {
  }

  /** The class a `querySelector` over a panel's items looks for. */
  datatype ItemFlag = IsActive | HasVideoElement

  predicate Shows(v: ItemView, f: ItemFlag)
  {
    match f
    case IsActive => v.active
    case HasVideoElement => v.hasVideo
  }

  /** The first item showing `f` in document order (`[data-index].active`,
      `slides.querySelector('video')`). */
  function FirstItem(items: seq<ItemView>, f: ItemFlag): (r: Option<nat>)
    ensures r.Some? ==> r.value < |items| && Shows(items[r.value], f)
    ensures r.Some? ==> forall j :: 0 <= j < r.value ==> !Shows(items[j], f)
    ensures r.None? ==> forall j :: 0 <= j < |items| ==> !Shows(items[j], f)
  {
    if |items| == 0 then None
    else if Shows(items[0], f) then Some(0)
    else match FirstItem(items[1..], f)
      case None => None
      case Some(k) => Some(k + 1)
  }

  // ---------------------------------------------------------------------------
  // The slider's children

  /** The three `document.querySelector` patterns used on the slider's panels. */
  datatype Query = WithRole(role: Role) | OfStory(story: StoryId) | WithUid(uid: nat)

  predicate Matches(p: Panel, q: Query)
  {
    match q
    case WithRole(r) => r in p.roles
    case OfStory(sid) => p.story == sid
    case WithUid(u) => p.uid == u
  }

  /** The first panel, in document order, matching `q`. */
  function Find(dom: seq<Panel>, q: Query): (k: Option<nat>)
    ensures k.Some? ==> k.value < |dom| && Matches(dom[k.value], q)
    ensures k.Some? ==> forall j :: 0 <= j < k.value ==> !Matches(dom[j], q)
    ensures k.None? ==> forall j :: 0 <= j < |dom| ==> !Matches(dom[j], q)
  {
    if |dom| == 0 then None
    else if Matches(dom[0], q) then Some(0)
    else match Find(dom[1..], q)
      case None => None
      case Some(k) => Some(k + 1)
  }

  /** `el.parentNode.removeChild(el)` on the `k`-th panel. */
  function RemoveAt(dom: seq<Panel>, k: nat): (r: seq<Panel>)
    requires k < |dom|
    ensures |r| == |dom| - 1
    ensures forall j :: 0 <= j < k ==> r[j] == dom[j]
    ensures forall j :: k <= j < |r| ==> r[j] == dom[j + 1]
  {
    dom[..k] + dom[k + 1..]
  }

  /** The old viewing panel: `stopped` and the useless role added, `viewing` removed. */
  function Retire(p: Panel, useless: Role): (r: Panel)
    ensures r.stopped && Viewing !in r.roles
    ensures useless != Viewing ==> useless in r.roles
    ensures forall x :: x != useless && x != Viewing ==> (x in r.roles <==> x in p.roles)
    ensures r.(roles := p.roles, stopped := p.stopped) == p
  {
    p.(roles := p.roles + {useless} - {Viewing}, stopped := true)
  }

  /** The target panel: `stopped` and the target role removed, `viewing` added. */
  function Promote(p: Panel, target: Role): (r: Panel)
    ensures Viewing in r.roles && !r.stopped
    ensures target in r.roles <==> target == Viewing
    ensures forall x :: x != target && x != Viewing ==> (x in r.roles <==> x in p.roles)
    ensures r.(roles := p.roles, stopped := p.stopped) == p
  {
    p.(roles := p.roles - {target} + {Viewing}, stopped := false)
  }
}
