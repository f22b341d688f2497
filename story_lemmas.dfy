// Story-level behaviour: `createStoryViewer`, `moveStoryItem` and its timeout,
// `modal.show`, `modal.next` and `modal.close`.
module StoryLemmas {
  import opened Common
  import opened Storage
  import opened Timeline
  import opened Panels
  import opened Navigation
  import opened MediaLemmas

  // ---------------------------------------------------------------------------
  // createStoryViewer

  /** A story that already has a panel is not rendered again, and nothing changes. */
  lemma CreateViewerDuplicateGuard(env: Env, s: State, sid: StoryId, role: Role, forcePlay: bool)
    requires sid in s.data && Find(s.dom, OfStory(sid)).Some?
    ensures CreateViewer(env, s, sid, role, forcePlay) == Done(s)
  {
  }

  /** Otherwise the story's items before the current one become seen in the data, and
      (when the slider exists) one panel is added, at the front for `previous` and at
      the back otherwise, that shows those flags, has one active item at `currentItem`,
      carries the role, starts muted, and is stopped unless playing was forced. */
  lemma CreateViewerAddsPanel(env: Env, s: State, sid: StoryId, role: Role, forcePlay: bool)
    requires sid in s.data && Find(s.dom, OfStory(sid)).None?
    ensures var r := CreateViewer(env, s, sid, role, forcePlay);
            var st := s.data[sid];
            var marked := MarkSeenBefore(st.items, st.currentItem);
            var p := Panel(s.nextUid, sid, {role}, Views(marked, st.currentItem), true, !forcePlay, false);
            r.state.data == s.data[sid := st.(items := marked)] &&
            r.state.nextUid == s.nextUid + 1 &&
            (r.Threw? <==> !s.slider) &&
            (r.Done? && role == Previous ==> r.state.dom == [p] + s.dom) &&
            (r.Done? && role != Previous ==> r.state.dom == s.dom + [p]) &&
            (r.Threw? ==> r.state.dom == s.dom) &&
            (role != Viewing ==> r.state.currentVideo == s.currentVideo && r.state.playing == s.playing) &&
            r.state.calls == s.calls && r.state.currentStory == s.currentStory &&
            r.state.slider == s.slider && r.state.touch == s.touch && r.state.offset == s.offset
  {
    StagedKeepsScreen(s, sid, role, forcePlay);
  }

  /** Marking the items and playing the viewing panel's item changes no panel, callback,
      story or gesture state; only the viewing role touches the media. */
  lemma StagedKeepsScreen(s: State, sid: StoryId, role: Role, forcePlay: bool)
    requires sid in s.data
    ensures var r := Staged(s, sid, role, forcePlay);
            var st := s.data[sid];
            r.data == s.data[sid := st.(items := MarkSeenBefore(st.items, st.currentItem))] &&
            r.nextUid == s.nextUid + 1 && r.dom == s.dom &&
            (role != Viewing ==> r.currentVideo == s.currentVideo && r.playing == s.playing) &&
            r.calls == s.calls && r.currentStory == s.currentStory && r.pending == s.pending &&
            r.slider == s.slider && r.touch == s.touch && r.offset == s.offset && r.order == s.order
  {
    var p := RenderPanel(s, sid, role, forcePlay);
    var cur := s.data[sid].currentItem;
    if role == Viewing && 0 <= cur < |p.items| {
      PlayEffect(Rendered(s, sid), p, cur, false);
    }
  }

  // ---------------------------------------------------------------------------
  // moveStoryItem

  /** Without a panel in the target direction, `moveStoryItem` returns with no change. */
  lemma MoveStoryWithoutTarget(env: Env, s: State, forward: bool)
    requires Find(s.dom, WithRole(if forward then Next else Previous)).None?
    ensures MoveStory(env, s, forward) == s
  {
  }

  /** Otherwise it schedules one timeout that captured the first target-role panel and
      the first viewing panel, and changes nothing else but the slider offset. */
  lemma MoveStorySchedules(env: Env, s: State, forward: bool)
    requires Find(s.dom, WithRole(if forward then Next else Previous)).Some?
    ensures var target := if forward then Next else Previous;
            var k := Find(s.dom, WithRole(target)).value;
            var r := MoveStory(env, s, forward);
            var m := r.pending[|r.pending| - 1];
            |r.pending| == |s.pending| + 1 && r.pending[..|s.pending|] == s.pending &&
            m.target == target && m.useless == Opposite(target) &&
            m.targetUid == s.dom[k].uid && m.targetStory == s.dom[k].story &&
            (m.viewingUid.Some? <==> Find(s.dom, WithRole(Viewing)).Some?) && m.slider == s.sliderGen &&
            r == s.(pending := r.pending, offset := r.offset)
  {
    var r := MoveStory(env, s, forward);
    assert r.pending[..|s.pending|] == s.pending;
  }

  /** The first panel in role `r`, by uid. */
  function FirstUid(dom: seq<Panel>, r: Role): Option<nat>
  {
    match Find(dom, WithRole(r))
    case None => None
    case Some(k) => Some(dom[k].uid)
  }

  /** Whether a panel with this uid is in the slider. */
  predicate Attached(dom: seq<Panel>, uid: nat)
  {
    Find(dom, WithUid(uid)).Some?
  }

  predicate DistinctUids(dom: seq<Panel>)
  {
    forall i, j :: 0 <= i < j < |dom| ==> dom[i].uid != dom[j].uid
  }

  lemma FindUidAt(dom: seq<Panel>, j: nat)
    requires DistinctUids(dom) && j < |dom|
    ensures Find(dom, WithUid(dom[j].uid)) == Some(j)
  {
  }

  /** Replacing a panel by one with the same uid keeps the uid lookups. */
  lemma FindUidAfterUpdate(dom: seq<Panel>, j: nat, p: Panel, u: nat)
    requires j < |dom| && p.uid == dom[j].uid
    ensures Find(dom[j := p], WithUid(u)) == Find(dom, WithUid(u))
  {
    if |dom| > 0 && j > 0 {
      assert dom[j := p][1..] == dom[1..][j - 1 := p];
      FindUidAfterUpdate(dom[1..], j - 1, p, u);
    }
  }

  /** Removing a panel leaves the others attached and the uids distinct. */
  lemma RemoveAtKeepsOthers(dom: seq<Panel>, k: nat, u: nat)
    requires DistinctUids(dom) && k < |dom|
    ensures DistinctUids(RemoveAt(dom, k))
    ensures u != dom[k].uid ==> (Attached(RemoveAt(dom, k), u) <==> Attached(dom, u))
    ensures !Attached(RemoveAt(dom, k), dom[k].uid)
  {
    var r := RemoveAt(dom, k);
    if u != dom[k].uid && Attached(dom, u) {
      var j := Find(dom, WithUid(u)).value;
      if j < k { assert r[j].uid == u; } else { assert r[j - 1].uid == u; }
    }
    if Attached(r, u) {
      var j := Find(r, WithUid(u)).value;
      if j < k { assert dom[j].uid == u; } else { assert dom[j + 1].uid == u; }
    }
    forall j | 0 <= j < |r|
      ensures r[j].uid != dom[k].uid
    {
      if j < k { assert r[j] == dom[j]; } else { assert r[j] == dom[j + 1]; }
    }
  }

  /** The panel with uid `u`, when attached. */
  function PanelOf(dom: seq<Panel>, u: nat): Panel
    requires Attached(dom, u)
  {
    dom[Find(dom, WithUid(u)).value]
  }

  /** The first part of the timeout rotates the roles: the target's story is current,
      the first panel that was in the useless role is gone, the captured target (if still
      attached) is viewing and no longer in the target role, and the captured viewing
      panel (if still attached) is in the useless role, stopped, and no longer viewing. */
  lemma RotateEffect(s: State, m: PendingMove)
    requires DistinctUids(s.dom)
    requires m.target != Viewing && m.useless != Viewing
    requires m.viewingUid.Some? ==> m.viewingUid.value != m.targetUid
    ensures var r := Rotate(s, m);
            var gone := FirstUid(s.dom, m.useless);
            r.currentStory == Some(m.targetStory) && DistinctUids(r.dom) &&
            (gone.Some? ==> !Attached(r.dom, gone.value)) &&
            (Attached(s.dom, m.targetUid) && gone != Some(m.targetUid) ==>
               Attached(r.dom, m.targetUid) &&
               Viewing in PanelOf(r.dom, m.targetUid).roles && m.target !in PanelOf(r.dom, m.targetUid).roles &&
               !PanelOf(r.dom, m.targetUid).stopped) &&
            (m.viewingUid.Some? && Attached(s.dom, m.viewingUid.value) && gone != m.viewingUid ==>
               Attached(r.dom, m.viewingUid.value) &&
               m.useless in PanelOf(r.dom, m.viewingUid.value).roles &&
               Viewing !in PanelOf(r.dom, m.viewingUid.value).roles && PanelOf(r.dom, m.viewingUid.value).stopped) &&
            r.data == s.data && r.order == s.order && r.calls == s.calls && r.currentVideo == s.currentVideo
  {
    var gone := FirstUid(s.dom, m.useless);
    var s2 := DropRole(s.(currentStory := Some(m.targetStory)), m.useless);
    var d3 := RetireUid(s2.dom, m.viewingUid, m.useless);
    DropRoleEffect(s.(currentStory := Some(m.targetStory)), m.useless, m.targetUid);
    if m.viewingUid.Some? {
      DropRoleEffect(s.(currentStory := Some(m.targetStory)), m.useless, m.viewingUid.value);
    }
    RetireUidEffect(s2.dom, m.viewingUid, m.useless, m.targetUid);
    if gone.Some? {
      RetireUidEffect(s2.dom, m.viewingUid, m.useless, gone.value);
      PromoteUidEffect(d3, m.targetUid, m.target, gone.value);
    }
    if m.viewingUid.Some? {
      RetireUidEffect(s2.dom, m.viewingUid, m.useless, m.viewingUid.value);
      PromoteUidEffect(d3, m.targetUid, m.target, m.viewingUid.value);
    }
    PromoteUidEffect(d3, m.targetUid, m.target, m.targetUid);
  }

  lemma DropRoleEffect(s: State, r: Role, w: nat)
    requires DistinctUids(s.dom)
    ensures var d := DropRole(s, r).dom;
            var gone := FirstUid(s.dom, r);
            DistinctUids(d) && (gone.Some? ==> !Attached(d, gone.value)) &&
            (gone != Some(w) ==> (Attached(d, w) <==> Attached(s.dom, w))) &&
            DropRole(s, r) == s.(dom := d, playing := DropRole(s, r).playing)
  {
    if FirstUid(s.dom, r).Some? {
      RemoveAtKeepsOthers(s.dom, Find(s.dom, WithRole(r)).value, w);
    }
  }

  lemma RetireUidEffect(dom: seq<Panel>, u: Option<nat>, useless: Role, w: nat)
    requires DistinctUids(dom) && useless != Viewing
    ensures var d := RetireUid(dom, u, useless);
            DistinctUids(d) && (Attached(d, w) <==> Attached(dom, w)) &&
            (Attached(dom, w) && u != Some(w) ==> PanelOf(d, w) == PanelOf(dom, w)) &&
            (Attached(dom, w) && u == Some(w) ==>
               PanelOf(d, w).stopped && useless in PanelOf(d, w).roles && Viewing !in PanelOf(d, w).roles)
  {
    if u.Some? && Attached(dom, u.value) {
      var j := Find(dom, WithUid(u.value)).value;
      UpdateUid(dom, j, Retire(dom[j], useless), w);
    }
  }

  lemma PromoteUidEffect(dom: seq<Panel>, u: nat, target: Role, w: nat)
    requires DistinctUids(dom) && target != Viewing
    ensures var d := PromoteUid(dom, u, target);
            DistinctUids(d) && (Attached(d, w) <==> Attached(dom, w)) &&
            (Attached(dom, w) && u != w ==> PanelOf(d, w) == PanelOf(dom, w)) &&
            (Attached(dom, w) && u == w ==>
               !PanelOf(d, w).stopped && Viewing in PanelOf(d, w).roles && target !in PanelOf(d, w).roles)
  {
    if Attached(dom, u) {
      var j := Find(dom, WithUid(u)).value;
      UpdateUid(dom, j, Promote(dom[j], target), w);
    }
  }

  /** Relabelling one panel of distinct uids keeps every uid lookup and changes only
      that panel. */
  lemma UpdateUid(dom: seq<Panel>, j: nat, q: Panel, w: nat)
    requires DistinctUids(dom) && j < |dom| && q.uid == dom[j].uid
    ensures DistinctUids(dom[j := q])
    ensures Attached(dom[j := q], w) == Attached(dom, w)
    ensures Attached(dom, w) && w != q.uid ==> PanelOf(dom[j := q], w) == PanelOf(dom, w)
    ensures Attached(dom[j := q], q.uid) && PanelOf(dom[j := q], q.uid) == q
  {
    FindUidAfterUpdate(dom, j, q, w);
    FindUidAfterUpdate(dom, j, q, q.uid);
    FindUidAt(dom, j);
  }

  /** `b` is `a` with at most one panel added at the front or at the back. */
  predicate GrowsByOne(a: seq<Panel>, b: seq<Panel>)
  {
    b == a || (|b| == |a| + 1 && (b[1..] == a || b[..|a|] == a))
  }

  /** `createStoryViewer` adds at most one panel and keeps the current story, the slider
      element and the pending timeouts. */
  lemma CreateViewerGrows(env: Env, s: State, sid: StoryId, role: Role, forcePlay: bool)
    requires sid in s.data
    ensures var r := CreateViewer(env, s, sid, role, forcePlay).state;
            GrowsByOne(s.dom, r.dom) && r.currentStory == s.currentStory && r.pending == s.pending &&
            r.calls == s.calls && r.sliderGen == s.sliderGen
  {
    if Find(s.dom, OfStory(sid)).None? {
      var p := RenderPanel(s, sid, role, forcePlay);
      var s2 := Staged(s, sid, role, forcePlay);
      StagedKeepsScreen(s, sid, role, forcePlay);
      assert ([p] + s.dom)[1..] == s.dom;
      assert (s.dom + [p])[..|s.dom|] == s.dom;
    }
  }

  /** The last part of the timeout keeps the panels and the current story; when it
      completes, `onView` was called for the story last. */
  lemma FocusKeepsPanels(env: Env, s: State, sid: StoryId, slider: nat)
    ensures var r := Focus(env, s, sid, slider);
            r.state.dom == s.dom && r.state.currentStory == s.currentStory && r.state.pending == s.pending &&
            (r.Done? ==> r.state.calls == s.calls + [OnView(sid)]) &&
            (r.Threw? ==> r.state == s)
  {
    var k := Find(s.dom, OfStory(sid));
    if k.Some? && FirstItem(s.dom[k.value].items, IsActive).Some? && sid in s.data {
      var a := FirstItem(s.dom[k.value].items, IsActive).value;
      var s1 := s.(data := s.data[sid := s.data[sid].(currentItem := a)]);
      PlayEffect(ResetSlider(env, s1, slider), s.dom[k.value], a, false);
    }
  }

  /** The timeout returns the slider it captured to 0: the one on screen while it is
      still that element, and nothing on screen once `modal.show` has built another. */
  lemma FocusResetsCapturedSlider(env: Env, s: State, sid: StoryId, slider: nat)
    ensures var r := Focus(env, s, sid, slider);
            (slider != s.sliderGen ==> r.state.offset == s.offset) &&
            (slider == s.sliderGen && s.slider && r.Done? ==> r.state.offset == 0)
  {
    var k := Find(s.dom, OfStory(sid));
    if k.Some? && FirstItem(s.dom[k.value].items, IsActive).Some? && sid in s.data {
      var a := FirstItem(s.dom[k.value].items, IsActive).value;
      var s1 := s.(data := s.data[sid := s.data[sid].(currentItem := a)]);
      PlayEffect(ResetSlider(env, s1, slider), s.dom[k.value], a, false);
    }
  }

  /** `modal.show` builds a new slider element and keeps the pending timeouts, so every
      timeout scheduled before it captured an element that is no longer shown. */
  lemma ShowRenewsSlider(env: Env, s: State, sid: StoryId, hooks: Hooks)
    requires hooks.open
    ensures var r := ModalShow(env, s, sid, hooks).state;
            r.sliderGen == s.sliderGen + 1 && r.pending == s.pending
  {
    var s1 := OpenSlider(s.(calls := s.calls + [OnOpen(sid)]));
    if sid in s1.data {
      var s2 := s1.(touch := Some(FreshTouch), currentStory := Some(sid));
      assert ModalShow(env, s, sid, hooks) == ShowViewers(env, s2, sid);
      match Sibling(s2.order, s2.data.Keys, s2.currentStory, Backward)
      case TimelineElementMissing =>
      case Adjacent(prev) =>
        var o1 := if prev.Some? then CreateViewer(env, s2, prev.value, Previous, false) else Done(s2);
        if prev.Some? {
          CreateViewerGrows(env, s2, prev.value, Previous, false);
        }
        if o1.Done? {
          var o2 := CreateViewer(env, o1.state, sid, Viewing, true);
          CreateViewerGrows(env, o1.state, sid, Viewing, true);
          if o2.Done? {
            var t := o2.state;
            match Sibling(t.order, t.data.Keys, t.currentStory, Forward)
            case TimelineElementMissing =>
            case Adjacent(next) =>
              if next.Some? {
                CreateViewerGrows(env, t, next.value, Next, false);
              }
          }
        }
    }
  }

  /** After the rotation the timeout only adds the neighbour's panel (at the front or
      the back) and plays without unmuting, so the rotated panels keep their roles. The
      target's story stays current, and when the timeout completes `onView` was called
      for it last. */
  lemma CompleteKeepsRotation(env: Env, s: State)
    requires |s.pending| > 0
    ensures var m := s.pending[0];
            var rot := Rotate(s.(pending := s.pending[1..]), m);
            var r := Complete(env, s);
            GrowsByOne(rot.dom, r.state.dom) &&
            r.state.currentStory == Some(m.targetStory) && r.state.pending == s.pending[1..] &&
            (r.Done? ==> r.state.calls == s.calls + [OnView(m.targetStory)])
  {
    var m := s.pending[0];
    var s1 := Rotate(s.(pending := s.pending[1..]), m);
    match Sibling(s1.order, s1.data.Keys, s1.currentStory, DirOf(m.target))
    case TimelineElementMissing =>
    case Adjacent(n) =>
      if n.Some? {
        CreateViewerGrows(env, s1, n.value, m.target, false);
      }
      var o := if n.Some? then CreateViewer(env, s1, n.value, m.target, false) else Done(s1);
      if o.Done? {
        FocusKeepsPanels(env, o.state, m.targetStory, m.slider);
      }
  }

  // ---------------------------------------------------------------------------
  // modal.next, modal.close

  /** `onEnd` not proceeding: only the callback is logged. */
  lemma ModalNextHeld(env: Env, s: State, hooks: Hooks)
    requires !hooks.end
    ensures ModalNext(env, s, hooks) == Done(s.(calls := s.calls + [OnEnd(s.currentStory)]))
  {
  }

  /** The seen bookkeeping for a story with a timeline element: the story and its
      `seenItems` entry are seen, `seenItems` is saved under `zuck-<id>-seenItems`, the
      timeline is a permutation of the old one, no story's `currentItem` moves and its
      items change at most in their `seen` flags, and nothing on screen changes. */
  lemma MarkSeenEffect(env: Env, s: State)
    requires s.currentStory.Some? && s.currentStory.value in s.order && s.currentStory.value in s.data
    ensures var c := s.currentStory.value;
            var r := MarkSeen(env, s);
            r.Done? && r.state.data.Keys == s.data.Keys &&
            (forall sid :: sid in s.data ==>
               r.state.data[sid].seen == (sid == c || s.data[sid].seen) &&
               r.state.data[sid].currentItem == s.data[sid].currentItem &&
               SameButSeen(s.data[sid].items, r.state.data[sid].items)) &&
            r.state.seenItems == s.seenItems[c := true] &&
            r.state.store == Save(s.store, env.config.localStorage, env.host.storageWritable, env.id, "seenItems", r.state.seenItems) &&
            multiset(r.state.order) == multiset(s.order) &&
            r.state == s.(data := r.state.data, seenItems := r.state.seenItems, store := r.state.store, order := r.state.order)
  {
    var c := s.currentStory.value;
    var data := s.data[c := s.data[c].(seen := true)];
    forall sid | sid in data
      ensures SameButSeen(data[sid].items, data[sid].items)
    {
    }
    if !env.config.reactive {
      SeenToEndPermutes(s.order, SeenStories(data));
      forall sid | sid in data
        ensures SameButSeen(data[sid].items, Reparsed(data[sid].items))
      {
        ReparsedMeaning(data[sid].items, 0);
      }
    }
  }

  /** Which items the bookkeeping rebuilds: with `reactive` none, and otherwise every
      item of every seen story of the timeline loses its `seen` flag while the other
      stories keep their items. */
  lemma MarkSeenRebuildsItems(env: Env, s: State)
    requires s.currentStory.Some? && s.currentStory.value in s.order && s.currentStory.value in s.data
    ensures var r := MarkSeen(env, s).state;
            (forall sid :: sid in s.data && (env.config.reactive || sid !in s.order || !r.data[sid].seen) ==>
               r.data[sid].items == s.data[sid].items) &&
            (!env.config.reactive ==>
               forall sid, i :: sid in s.data && sid in s.order && r.data[sid].seen && 0 <= i < |r.data[sid].items| ==>
                 !r.data[sid].items[i].seen)
  {
    var c := s.currentStory.value;
    var data := s.data[c := s.data[c].(seen := true)];
    if !env.config.reactive {
      forall sid | sid in data
        ensures forall i :: 0 <= i < |data[sid].items| ==> !Reparsed(data[sid].items)[i].seen
      {
        ReparsedMeaning(data[sid].items, 0);
      }
    }
  }

  /** After the bookkeeping without `reactive`, a seen story of the timeline rendered
      again shows exactly its items before `currentItem` as seen: the flags earlier
      renders set are gone. */
  lemma RenderAfterRebuild(env: Env, s: State, sid: StoryId, role: Role, forcePlay: bool)
    requires s.currentStory.Some? && s.currentStory.value in s.order && s.currentStory.value in s.data
    requires !env.config.reactive && sid in s.order && sid in s.data && (sid == s.currentStory.value || s.data[sid].seen)
    ensures var r := MarkSeen(env, s).state;
            var p := RenderPanel(r, sid, role, forcePlay);
            |p.items| == |s.data[sid].items| &&
            forall i :: 0 <= i < |p.items| ==> (p.items[i].seen <==> i < s.data[sid].currentItem)
  {
    var c := s.currentStory.value;
    var data := s.data[c := s.data[c].(seen := true)];
    ReparsedMeaning(data[sid].items, data[sid].currentItem);
    assert MarkSeen(env, s).state.data[sid] == data[sid].(items := Reparsed(data[sid].items));
  }

  /** Once `onEnd` proceeds for a story with a timeline element, the seen bookkeeping
      is done; then the viewer slides to the next panel if there is one, or closes. */
  lemma ModalNextMarksSeen(env: Env, s: State, hooks: Hooks)
    requires hooks.end && s.currentStory.Some? && s.currentStory.value in s.order && s.currentStory.value in s.data
    ensures var s0 := s.(calls := s.calls + [OnEnd(s.currentStory)]);
            var marked := MarkSeen(env, s0).state;
            var r := ModalNext(env, s, hooks);
            r.Done? &&
            (Find(s.dom, WithRole(Next)).None? ==> r.state == ModalClose(marked, hooks)) &&
            (Find(s.dom, WithRole(Next)).Some? ==> r.state == MoveStory(env, marked, true))
  {
    var s0 := s.(calls := s.calls + [OnEnd(s.currentStory)]);
    MarkSeenEffect(env, s0);
  }

  /** A page reloaded after `modal.next` (with storage on and writable) starts with the
      departed story seen. */
  lemma ReloadAfterNextSeesStory(env: Env, s: State, hooks: Hooks, data: map<StoryId, Story>, order: seq<StoryId>)
    requires hooks.end && s.currentStory.Some? && s.currentStory.value in s.order && s.currentStory.value in s.data
    requires env.config.localStorage && env.host.storageWritable
    ensures var c := s.currentStory.value;
            var reloaded := Init(env, data, order, ModalNext(env, s, hooks).state.store);
            c in reloaded.seenItems && reloaded.seenItems[c]
  {
    var c := s.currentStory.value;
    var s0 := s.(calls := s.calls + [OnEnd(s.currentStory)]);
    MarkSeenEffect(env, s0);
    ModalNextMarksSeen(env, s, hooks);
    var marked := MarkSeen(env, s0).state;
    SaveThenLoad(s.store, true, env.id, "seenItems", marked.seenItems);
    AfterEndKeepsMarks(env, marked, hooks);
    assert ModalNext(env, s, hooks) == Done(AfterEnd(env, marked, hooks));
  }

  /** A story without a timeline element is not marked, and with the `reactive` option
      the timeline keeps its order. */
  lemma ModalNextOrder(env: Env, s: State, hooks: Hooks)
    ensures s.currentStory.None? || s.currentStory.value !in s.order ==>
              ModalNext(env, s, hooks).state.seenItems == s.seenItems &&
              ModalNext(env, s, hooks).state.store == s.store &&
              ModalNext(env, s, hooks).state.order == s.order
    ensures env.config.reactive ==> ModalNext(env, s, hooks).state.order == s.order
  {
    var s0 := s.(calls := s.calls + [OnEnd(s.currentStory)]);
    if hooks.end {
      var o := MarkSeen(env, s0);
      if o.Done? {
        AfterEndKeepsMarks(env, o.state, hooks);
        assert ModalNext(env, s, hooks) == Done(AfterEnd(env, o.state, hooks));
      }
    }
  }

  /** Closing or moving on after the seen bookkeeping keeps what it recorded. */
  lemma AfterEndKeepsMarks(env: Env, s: State, hooks: Hooks)
    ensures var r := AfterEnd(env, s, hooks);
            r.seenItems == s.seenItems && r.store == s.store && r.order == s.order && r.data == s.data
  {
    if Find(s.dom, WithRole(Next)).None? {
      assert AfterEnd(env, s, hooks) == ModalClose(s, hooks);
    } else {
      assert AfterEnd(env, s, hooks) == MoveStory(env, s, true);
    }
  }

  /** `modal.close` once `onClose` proceeds: no slider, no panels, no gesture listeners,
      and no media of the removed panels playing; nothing else changes. */
  lemma ModalCloseEmpties(s: State, hooks: Hooks)
    requires hooks.close
    ensures var r := ModalClose(s, hooks);
            !r.slider && r.dom == [] && r.touch.None? && r.playing <= s.playing &&
            (forall v :: v in r.playing ==> !Attached(s.dom, v.uid)) &&
            r == s.(slider := false, dom := [], touch := None, playing := r.playing,
                    calls := s.calls + [OnClose(s.currentStory)])
  {
  }

  // ---------------------------------------------------------------------------
  // modal.show

  /** `modal.show(storyId)` for a story of the timeline, once `onOpen` proceeds: the
      story is current, the slider holds its panel as the only viewing one (not stopped,
      with the current item playing) between the panels of its timeline neighbours, and
      `onOpen` then `onView` were called. */
  lemma ModalShowBuildsViewer(env: Env, s: State, sid: StoryId, hooks: Hooks)
    requires hooks.open && sid in s.data && sid in s.order && sid != "" && Distinct(s.order)
    ensures var r := ModalShow(env, s, sid, hooks);
            var prev := Sibling(s.order, s.data.Keys, Some(sid), Backward).story;
            var next := Sibling(s.order, s.data.Keys, Some(sid), Forward).story;
            var before := if prev.Some? then 1 else 0;
            r.Done? && r.state.currentStory == Some(sid) && r.state.slider &&
            r.state.touch == Some(FreshTouch) && r.state.offset == 0 &&
            r.state.calls == s.calls + [OnOpen(sid), OnView(sid)] &&
            |r.state.dom| == before + 1 + (if next.Some? then 1 else 0) &&
            r.state.dom[before].story == sid && r.state.dom[before].roles == {Viewing} &&
            !r.state.dom[before].stopped &&
            (prev.Some? ==> r.state.dom[0].story == prev.value && r.state.dom[0].roles == {Previous}) &&
            (next.Some? ==> r.state.dom[before + 1].story == next.value && r.state.dom[before + 1].roles == {Next})
  {
    var s0 := s.(calls := s.calls + [OnOpen(sid)]);
    var s2 := OpenSlider(s0).(touch := Some(FreshTouch), currentStory := Some(sid));
    assert ModalShow(env, s, sid, hooks) == ShowViewers(env, s2, sid);
    ShowViewersEffect(env, s2, sid);
  }

  /** The panels of `modal.show` once the slider is fresh. */
  lemma ShowViewersEffect(env: Env, s2: State, sid: StoryId)
    requires sid in s2.data && sid in s2.order && sid != "" && Distinct(s2.order)
    requires s2.slider && s2.dom == [] && s2.currentStory == Some(sid)
    ensures var r := ShowViewers(env, s2, sid);
            var prev := Sibling(s2.order, s2.data.Keys, Some(sid), Backward).story;
            var next := Sibling(s2.order, s2.data.Keys, Some(sid), Forward).story;
            var before := if prev.Some? then 1 else 0;
            r.Done? && r.state.currentStory == Some(sid) && r.state.slider &&
            r.state.touch == s2.touch && r.state.offset == s2.offset &&
            r.state.calls == s2.calls + [OnView(sid)] &&
            |r.state.dom| == before + 1 + (if next.Some? then 1 else 0) &&
            r.state.dom[before].story == sid && r.state.dom[before].roles == {Viewing} &&
            !r.state.dom[before].stopped &&
            (prev.Some? ==> r.state.dom[0].story == prev.value && r.state.dom[0].roles == {Previous}) &&
            (next.Some? ==> r.state.dom[before + 1].story == next.value && r.state.dom[before + 1].roles == {Next})
  {
    var i := IndexOf(s2.order, sid).value;
    IndexOfDistinct(s2.order, i);
    var prev := Sibling(s2.order, s2.data.Keys, Some(sid), Backward).story;
    var next := Sibling(s2.order, s2.data.Keys, Some(sid), Forward).story;
    var t1 := ShowPreviousPanel(env, s2, sid, prev);
    var t2 := ShowViewingPanel(env, t1, sid);
    assert ShowViewers(env, s2, sid) == ShowNext(env, t2, sid);
    SiblingsApart(s2.order, s2.data.Keys, sid, prev, next);
    if next.Some? {
      assert forall j :: 0 <= j < |t2.dom| ==> t2.dom[j].story != next.value;
    }
    var r := ShowNextAppends(env, t2, sid, next);
  }

  /** In a timeline without repeats, the two neighbours of a story are neither the story
      nor each other. */
  lemma SiblingsApart(order: seq<StoryId>, known: set<StoryId>, sid: StoryId, prev: Option<StoryId>, next: Option<StoryId>)
    requires Distinct(order) && sid in order && sid != ""
    requires prev == Sibling(order, known, Some(sid), Backward).story
    requires next == Sibling(order, known, Some(sid), Forward).story
    ensures prev.Some? ==> prev.value != sid
    ensures next.Some? ==> next.value != sid && (prev.Some? ==> next.value != prev.value)
  {
    var i := IndexOf(order, sid).value;
    IndexOfDistinct(order, i);
    if prev.Some? {
      assert prev.value == order[i - 1];
    }
    if next.Some? {
      assert next.value == order[i + 1];
    }
  }

  /** The first step of `modal.show` in a fresh slider: the previous story's panel, if
      any, is the only one. */
  lemma ShowPreviousPanel(env: Env, s2: State, sid: StoryId, prev: Option<StoryId>) returns (t1: State)
    requires sid in s2.data && sid in s2.order && sid != "" && Distinct(s2.order)
    requires s2.slider && s2.dom == [] && s2.currentStory == Some(sid)
    requires prev == Sibling(s2.order, s2.data.Keys, Some(sid), Backward).story
    ensures (if prev.Some? then CreateViewer(env, s2, prev.value, Previous, false) else Done(s2)) == Done(t1)
    ensures t1.slider && t1.currentStory == Some(sid) && t1.order == s2.order &&
            t1.data.Keys == s2.data.Keys && t1.touch == s2.touch && t1.offset == s2.offset && t1.calls == s2.calls &&
            |t1.dom| == (if prev.Some? then 1 else 0) && Find(t1.dom, OfStory(sid)).None? &&
            (prev.Some? ==> t1.dom[0].story == prev.value && t1.dom[0].roles == {Previous})
  {
    var i := IndexOf(s2.order, sid).value;
    IndexOfDistinct(s2.order, i);
    if prev.Some? {
      CreateViewerAddsPanel(env, s2, prev.value, Previous, false);
      assert prev.value == s2.order[i - 1];
      t1 := CreateViewer(env, s2, prev.value, Previous, false).state;
    } else {
      t1 := s2;
    }
  }

  /** The viewing panel of `modal.show` is appended after the previous one, started. */
  lemma ShowViewingPanel(env: Env, t1: State, sid: StoryId) returns (t2: State)
    requires sid in t1.data && t1.slider && Find(t1.dom, OfStory(sid)).None?
    ensures CreateViewer(env, t1, sid, Viewing, true) == Done(t2)
    ensures t2.slider && t2.currentStory == t1.currentStory &&
            t2.order == t1.order && t2.data.Keys == t1.data.Keys &&
            t2.touch == t1.touch && t2.offset == t1.offset && t2.calls == t1.calls &&
            t2.dom == t1.dom + [t2.dom[|t1.dom|]] && t2.dom[|t1.dom|].story == sid &&
            t2.dom[|t1.dom|].roles == {Viewing} && !t2.dom[|t1.dom|].stopped
  {
    CreateViewerAddsPanel(env, t1, sid, Viewing, true);
    t2 := CreateViewer(env, t1, sid, Viewing, true).state;
  }

  /** The end of `modal.show`: the next story's panel is appended and `onView` called. */
  lemma ShowNextAppends(env: Env, t: State, sid: StoryId, n: Option<StoryId>) returns (r: State)
    requires t.currentStory == Some(sid) && sid in t.order && sid != "" && t.slider
    requires n == Sibling(t.order, t.data.Keys, Some(sid), Forward).story
    requires n.Some? ==> Find(t.dom, OfStory(n.value)).None?
    ensures ShowNext(env, t, sid) == Done(r)
    ensures |r.dom| == |t.dom| + (if n.Some? then 1 else 0) && r.dom[..|t.dom|] == t.dom &&
            (n.Some? ==> r.dom[|t.dom|].story == n.value && r.dom[|t.dom|].roles == {Next}) &&
            r.calls == t.calls + [OnView(sid)] && r.currentStory == t.currentStory &&
            r.slider && r.touch == t.touch && r.offset == t.offset
  {
    if n.Some? {
      CreateViewerAddsPanel(env, t, n.value, Next, false);
      var u := CreateViewer(env, t, n.value, Next, false).state;
      assert u.dom[..|t.dom|] == t.dom;
    }
    r := ShowNext(env, t, sid).state;
  }
}
