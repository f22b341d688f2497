// One `ZuckJS` instance as an object: its fields are `zuck.data`, the timeline order,
// `zuck.internalData`, the key/value store, the modal slider and its panels, the
// media that play, the pending `moveStoryItem` timeouts, the closure of the current
// `createStoryTouchEvents` and the log of user callbacks. Each handler updates them
// in place, step by step as the script does, and is proved to end in the state the
// matching function of `Navigation` computes from the old one; what those functions
// guarantee is proved in the lemma modules.
module Viewer {
  import opened Common
  import opened Storage
  import opened Gesture
  import opened Timeline
  import opened Panels
  import opened Navigation
  import opened MediaLemmas
  import opened InvariantLemmas

  class Zuck {
    const env: Env
    var data: map<StoryId, Story>
    var order: seq<StoryId>
    var currentStory: Option<StoryId>
    var seenItems: SeenMap
    var store: Store
    var slider: bool
    var offset: int
    var sliderGen: nat
    var dom: seq<Panel>
    var nextUid: nat
    var currentVideo: Option<VideoRef>
    var playing: set<VideoRef>
    var pending: seq<PendingMove>
    var touch: Option<Touch>
    var calls: seq<Call>

    /** What every handler keeps: distinct timeline ids with data, no panels or gesture
        listeners without a slider, panels that agree with the data and have distinct
        uids and stories, and a pending tap timer whenever `nextTimer` is set. */
    predicate Valid()
      reads this
    {
      Inv(Snap())
    }

    /** The fields as one `Navigation.State`. */
    function Snap(): State
      reads this
    {
      State(data, order, currentStory, seenItems, store, slider, offset, sliderGen, dom, nextUid,
            currentVideo, playing, pending, touch, calls)
    }

    /** The instance as `ZuckJS(timeline, options)` leaves it: `seenItems` is read back
        with `getLocalData('seenItems') || {}`. */
    constructor (env0: Env, data0: map<StoryId, Story>, order0: seq<StoryId>, store0: Store)
      ensures env == env0 && Snap() == Init(env0, data0, order0, store0)
      ensures Distinct(order0) && (forall sid :: sid in order0 ==> sid in data0) ==> Valid()
    {
      if Distinct(order0) && (forall sid :: sid in order0 ==> sid in data0) {
        InitEstablishesInv(env0, data0, order0, store0);
      }
      env := env0;
      data := data0;
      order := order0;
      currentStory := None;
      seenItems := InitialSeen(store0, env0.config.localStorage, env0.id);
      store := store0;
      slider := false;
      offset := 0;
      sliderGen := 0;
      dom := [];
      nextUid := 0;
      currentVideo := None;
      playing := {};
      pending := [];
      touch := None;
      calls := [];
    }

    // -------------------------------------------------------------------------
    // Storage

    /** `getLocalData(key)`. */
    method GetLocalData(key: string) returns (r: Option<SeenMap>)
      ensures r == Load(store, env.config.localStorage, env.id, key)
    {
      var name := KeyName(env.id, key);
      if env.config.localStorage && name in store {
        r := Some(store[name]);
      } else {
        r := None;
      }
    }

    /** `saveLocalData(key, data)`. */
    method SaveLocalData(key: string, value: SeenMap)
      modifies this
      ensures Snap() == old(Snap()).(store := Save(old(store), env.config.localStorage, env.host.storageWritable, env.id, key, value))
      ensures env.config.localStorage && env.host.storageWritable ==> Load(store, true, env.id, key) == Some(value)
      ensures forall other :: other != key ==>
                Load(store, env.config.localStorage, env.id, other) == Load(old(store), env.config.localStorage, env.id, other)
    {
      if env.config.localStorage && env.host.storageWritable {
        store := store[KeyName(env.id, key) := value];
      }
    }

    // -------------------------------------------------------------------------
    // Media

    /** `pauseVideoItem()`. */
    method PauseVideoItem()
      modifies this
      ensures Snap() == Pause(old(Snap()))
    {
      if currentVideo.Some? {
        playing := playing - {currentVideo.value};
      }
    }

    /** `unmuteVideoItem(video, storyViewer)`. */
    method UnmuteVideoItem(v: VideoRef, viewer: Option<nat>)
      modifies this
      ensures Snap() == Unmute(old(Snap()), v, viewer)
    {
      playing := playing + {v};
      var j := Find(dom, WithUid(v.uid));
      if j.Some? && FirstItem(dom[j.value].items, HasVideoElement) == Some(v.index) {
        dom := dom[j.value := dom[j.value].(muted := false)];
      }
      if viewer.Some? {
        var k := Find(dom, WithUid(viewer.value));
        if k.Some? {
          dom := dom[k.value := dom[k.value].(paused := false)];
        }
      }
    }

    /** `playVideoItem(storyViewer, elements, unmute)` on item `index` of `p`. */
    method PlayVideoItem(p: Panel, index: int, unmute: bool)
      modifies this
      ensures Snap() == Play(old(Snap()), p, index, unmute)
    {
      if !(0 <= index < |p.items|) {
        return;
      }
      PauseVideoItem();
      var it := p.items[index];
      if !it.isVideo || !it.hasVideo {
        currentVideo := None;
        return;
      }
      var v := VideoRef(p.uid, index);
      currentVideo := Some(v);
      playing := playing + {v};
      if unmute {
        UnmuteVideoItem(v, Some(p.uid));
      }
    }

    // -------------------------------------------------------------------------
    // The slider

    /** `translate(modalSlider, to, ...)`. */
    method Translate(to: int)
      modifies this
      ensures Snap() == Navigation.Translate(env, old(Snap()), to)
    {
      if env.config.cubeEffect && CubeAborts(to, env.host.modalWidth) {
        return;
      }
      if slider {
        offset := to;
      }
    }

    /** The item loop of `createStoryViewer` and the classes the templates then give
        each item: the items before `cur` are marked seen, and item `cur` is active. */
    method RenderItems(items: seq<StoryItem>, cur: nat) returns (marked: seq<StoryItem>, views: seq<ItemView>)
      ensures marked == MarkSeenBefore(items, cur) && views == Views(marked, cur)
    {
      marked, views := [], [];
      var i := 0;
      while i < |items|
        invariant 0 <= i <= |items| && |marked| == i && |views| == i
        invariant forall j :: 0 <= j < i ==>
                    marked[j] == if j < cur then items[j].(seen := true) else items[j]
        invariant forall j :: 0 <= j < i ==>
                    views[j] == ItemView(marked[j].isVideo, marked[j].hasVideo, marked[j].seen, j == cur)
      {
        var item := items[i];
        if cur > i {
          item := item.(seen := true);
        }
        marked := marked + [item];
        views := views + [ItemView(item.isVideo, item.hasVideo, item.seen, cur == i)];
        i := i + 1;
      }
    }

    /** `createStoryViewer(storyData, className, forcePlay)`; `thrown` is the TypeError
        of attaching to a slider that is gone. */
    method CreateStoryViewer(sid: StoryId, role: Role, forcePlay: bool) returns (thrown: bool)
      requires sid in data
      modifies this
      ensures var o := CreateViewer(env, old(Snap()), sid, role, forcePlay);
              Snap() == o.state && thrown == o.Threw?
    {
      if Find(dom, OfStory(sid)).Some? {
        return false;
      }
      ghost var s0 := Snap();
      var st := data[sid];
      var cur := st.currentItem;
      var marked, views := RenderItems(st.items, cur);
      var p := Panel(nextUid, sid, {role}, views, true, !forcePlay, false);
      data := data[sid := st.(items := marked)];
      nextUid := nextUid + 1;
      assert p == RenderPanel(s0, sid, role, forcePlay);
      assert Snap() == Rendered(s0, sid);
      if role == Viewing {
        PlayVideoItem(p, cur, false);
      }
      assert Snap() == Staged(s0, sid, role, forcePlay);
      thrown := AttachPanel(p, role);
    }

    /** Prepending or appending the panel `p` to the slider. */
    method AttachPanel(p: Panel, role: Role) returns (thrown: bool)
      modifies this
      ensures var o := Attach(old(Snap()), p, role);
              Snap() == o.state && thrown == o.Threw?
    {
      if !slider {
        return true;
      }
      if role == Previous {
        dom := [p] + dom;
      } else {
        dom := dom + [p];
      }
      thrown := false;
    }

    /** `moveStoryItem(forward)`: the translation, and the timeout queued with what it
        captures. */
    method MoveStoryItem(forward: bool)
      modifies this
      ensures Snap() == MoveStory(env, old(Snap()), forward)
      ensures old(Valid()) ==> Valid()
      ensures old(SingleMedia(Snap())) ==> SingleMedia(Snap())
    {
      ghost var s0 := Snap();
      if Inv(s0) {
        MoveStoryKeepsInv(env, s0, forward);
      }
      if SingleMedia(s0) {
        MoveStoryKeepsSingleMedia(env, s0, forward);
      }
      MoveStoryItemBody(forward);
    }

    /** The steps of `MoveStoryItem`, one statement of the handler at a time. */
    method MoveStoryItemBody(forward: bool)
      modifies this
      ensures Snap() == MoveStory(env, old(Snap()), forward)
    {
      var target := if forward then Next else Previous;
      var k := Find(dom, WithRole(target));
      if k.None? {
        return;
      }
      var to := if env.config.cubeEffect then (if forward then -env.host.slideWidth else env.host.slideWidth)
                else -Left(env.host, target);
      var viewing := Find(dom, WithRole(Viewing));
      var m := PendingMove(target, Opposite(target), dom[k.value].uid, dom[k.value].story,
                           if viewing.Some? then Some(dom[viewing.value].uid) else None, sliderGen);
      Translate(to);
      pending := pending + [m];
    }

    /** The first part of the timeout of `m`. */
    method RotatePanels(m: PendingMove)
      modifies this
      ensures Snap() == Rotate(old(Snap()), m)
    {
      currentStory := Some(m.targetStory);
      DropPanel(m.useless);
      RetirePanel(m.viewingUid, m.useless);
      PromotePanel(m.targetUid, m.target);
    }

    /** Removing the first panel in role `r`, if any, with its media. */
    method DropPanel(r: Role)
      modifies this
      ensures Snap() == DropRole(old(Snap()), r)
    {
      var k := Find(dom, WithRole(r));
      if k.Some? {
        playing := set v | v in playing && v.uid != dom[k.value].uid;
        dom := RemoveAt(dom, k.value);
      }
    }

    /** The captured viewing panel, when still attached, takes the useless role. */
    method RetirePanel(u: Option<nat>, useless: Role)
      modifies this
      ensures Snap() == old(Snap()).(dom := RetireUid(old(dom), u, useless))
    {
      if u.Some? {
        var j := Find(dom, WithUid(u.value));
        if j.Some? {
          dom := dom[j.value := Retire(dom[j.value], useless)];
        }
      }
    }

    /** The captured target panel, when still attached, becomes the viewing one. */
    method PromotePanel(u: nat, target: Role)
      modifies this
      ensures Snap() == old(Snap()).(dom := PromoteUid(old(dom), u, target))
    {
      var j := Find(dom, WithUid(u));
      if j.Some? {
        dom := dom[j.value := Promote(dom[j.value], target)];
      }
    }

    /** The last part of the timeout: the story `sid` takes its panel's active item, and
        the slider of generation `captured` returns to 0. */
    method FocusStory(sid: StoryId, captured: nat) returns (thrown: bool)
      modifies this
      ensures var o := Focus(env, old(Snap()), sid, captured);
              Snap() == o.state && thrown == o.Threw?
    {
      var k := Find(dom, OfStory(sid));
      if k.None? {
        ResetCaptured(captured);
        calls := calls + [OnView(sid)];
        return false;
      }
      var p := dom[k.value];
      var a := FirstItem(p.items, IsActive);
      if a.None? || sid !in data {
        return true;
      }
      data := data[sid := data[sid].(currentItem := a.value)];
      ResetCaptured(captured);
      PlayVideoItem(p, a.value, false);
      calls := calls + [OnView(sid)];
      thrown := false;
    }

    /** `translate(modalSlider, '0', 0, null)` on a captured slider, which has no effect
        on the one shown once the modal content was rebuilt. */
    method ResetCaptured(captured: nat)
      modifies this
      ensures Snap() == ResetSlider(env, old(Snap()), captured)
    {
      if captured == sliderGen {
        Translate(0);
      }
    }

    /** The oldest pending `moveStoryItem` timeout fires. */
    method CompleteMove() returns (thrown: bool)
      requires |pending| > 0
      modifies this
      ensures var o := Complete(env, old(Snap()));
              Snap() == o.state && thrown == o.Threw?
      ensures old(Valid()) ==> Valid()
      ensures old(SingleMedia(Snap())) ==> SingleMedia(Snap())
    {
      ghost var s0 := Snap();
      if Inv(s0) {
        CompleteKeepsInv(env, s0);
      }
      if SingleMedia(s0) {
        CompleteKeepsSingleMedia(env, s0);
      }
      thrown := CompleteMoveBody();
    }

    /** The steps of `CompleteMove`, one statement of the handler at a time. */
    method CompleteMoveBody() returns (thrown: bool)
      requires |pending| > 0
      modifies this
      ensures var o := Complete(env, old(Snap()));
              Snap() == o.state && thrown == o.Threw?
    {
      var m := pending[0];
      pending := pending[1..];
      RotatePanels(m);
      var n := Sibling(order, data.Keys, currentStory, DirOf(m.target));
      if n.TimelineElementMissing? {
        return true;
      }
      if n.story.Some? {
        thrown := CreateStoryViewer(n.story.value, m.target, false);
        if thrown {
          return;
        }
      }
      thrown := FocusStory(m.targetStory, m.slider);
    }

    // -------------------------------------------------------------------------
    // Modal

    /** Emptying the slider; the removed media stop. */
    method ClearPanels()
      modifies this
      ensures Snap() == ClearSlider(old(Snap()))
    {
      playing := set v | v in playing && Find(dom, WithUid(v.uid)).None?;
      dom := [];
    }

    /** `modal.show(storyId)`. */
    method ModalShow(sid: StoryId, hooks: Hooks) returns (thrown: bool)
      modifies this
      ensures var o := Navigation.ModalShow(env, old(Snap()), sid, hooks);
              Snap() == o.state && thrown == o.Threw?
      ensures old(Valid()) ==> Valid()
      ensures old(SingleMedia(Snap())) ==> SingleMedia(Snap())
    {
      ghost var s0 := Snap();
      if Inv(s0) {
        ModalShowKeepsInv(env, s0, sid, hooks);
      }
      if SingleMedia(s0) {
        ShowKeepsSingleMedia(env, s0, sid, hooks);
      }
      thrown := ModalShowBody(sid, hooks);
    }

    /** The steps of `ModalShow`, one statement of the handler at a time. */
    method ModalShowBody(sid: StoryId, hooks: Hooks) returns (thrown: bool)
      modifies this
      ensures var o := Navigation.ModalShow(env, old(Snap()), sid, hooks);
              Snap() == o.state && thrown == o.Threw?
    {
      ghost var s0 := Snap();
      calls := calls + [OnOpen(sid)];
      if !hooks.open {
        return false;
      }
      OpenSliderBody();
      ghost var s1 := Snap();
      assert s1 == OpenSlider(s0.(calls := s0.calls + [OnOpen(sid)]));
      if sid !in data {
        return true;
      }
      touch, currentStory := Some(FreshTouch), Some(sid);
      assert Snap() == s1.(touch := Some(FreshTouch), currentStory := Some(sid));
      thrown := ShowStory(sid);
    }

    /** The modal content replaced by an empty slider. */
    method OpenSliderBody()
      modifies this
      ensures Snap() == OpenSlider(old(Snap()))
    {
      ClearPanels();
      slider, offset, sliderGen, touch := true, 0, sliderGen + 1, None;
    }

    /** The previous and viewing panels of `modal.show`, then the next one. */
    method ShowStory(sid: StoryId) returns (thrown: bool)
      requires sid in data
      modifies this
      ensures var o := ShowViewers(env, old(Snap()), sid);
              Snap() == o.state && thrown == o.Threw?
    {
      var prev := Sibling(order, data.Keys, currentStory, Backward);
      if prev.TimelineElementMissing? {
        return true;
      }
      if prev.story.Some? {
        thrown := CreateStoryViewer(prev.story.value, Previous, false);
        if thrown {
          return;
        }
      }
      thrown := CreateStoryViewer(sid, Viewing, true);
      if thrown {
        return;
      }
      thrown := ShowNextStory(sid);
    }

    /** The next panel of `modal.show`, and `onView`. */
    method ShowNextStory(sid: StoryId) returns (thrown: bool)
      modifies this
      ensures var o := ShowNext(env, old(Snap()), sid);
              Snap() == o.state && thrown == o.Threw?
    {
      var next := Sibling(order, data.Keys, currentStory, Forward);
      if next.TimelineElementMissing? {
        return true;
      }
      if next.story.Some? {
        thrown := CreateStoryViewer(next.story.value, Next, false);
        if thrown {
          return;
        }
      }
      calls := calls + [OnView(sid)];
      thrown := false;
    }

    /** The seen bookkeeping of `modal.next`. */
    method MarkCurrentSeen() returns (thrown: bool)
      modifies this
      ensures var o := MarkSeen(env, old(Snap()));
              Snap() == o.state && thrown == o.Threw?
    {
      if currentStory.None? || currentStory.value !in order {
        return false;
      }
      var c := currentStory.value;
      if c !in data {
        return true;
      }
      data := data[c := data[c].(seen := true)];
      seenItems := seenItems[c := true];
      SaveLocalData("seenItems", seenItems);
      if !env.config.reactive {
        order, data := SeenToEnd(order, SeenStories(data)), Reparse(data, order);
      }
      thrown := false;
    }

    /** `modal.next()`. */
    method ModalNext(hooks: Hooks) returns (thrown: bool)
      modifies this
      ensures var o := Navigation.ModalNext(env, old(Snap()), hooks);
              Snap() == o.state && thrown == o.Threw?
      ensures old(Valid()) ==> Valid()
      ensures old(SingleMedia(Snap())) ==> SingleMedia(Snap())
    {
      ghost var s0 := Snap();
      if Inv(s0) {
        ModalNextKeepsInv(env, s0, hooks);
      }
      if SingleMedia(s0) {
        NextKeepsSingleMedia(env, s0, hooks);
      }
      thrown := ModalNextBody(hooks);
    }

    /** The steps of `ModalNext`, one statement of the handler at a time. */
    method ModalNextBody(hooks: Hooks) returns (thrown: bool)
      modifies this
      ensures var o := Navigation.ModalNext(env, old(Snap()), hooks);
              Snap() == o.state && thrown == o.Threw?
    {
      calls := calls + [OnEnd(currentStory)];
      if !hooks.end {
        return false;
      }
      thrown := MarkCurrentSeen();
      if thrown {
        return;
      }
      if Find(dom, WithRole(Next)).None? {
        ModalCloseBody(hooks);
      } else {
        MoveStoryItemBody(true);
      }
    }

    /** `modal.close()`. */
    method ModalClose(hooks: Hooks)
      modifies this
      ensures Snap() == Navigation.ModalClose(old(Snap()), hooks)
      ensures old(Valid()) ==> Valid()
      ensures old(SingleMedia(Snap())) ==> SingleMedia(Snap())
    {
      ghost var s0 := Snap();
      if Inv(s0) {
        ModalCloseKeepsInv(s0, hooks);
      }
      if SingleMedia(s0) {
        CloseKeepsSingleMedia(s0, hooks);
      }
      ModalCloseBody(hooks);
    }

    /** The steps of `ModalClose`, one statement of the handler at a time. */
    method ModalCloseBody(hooks: Hooks)
      modifies this
      ensures Snap() == Navigation.ModalClose(old(Snap()), hooks)
    {
      calls := calls + [OnClose(currentStory)];
      if !hooks.close {
        return;
      }
      ClearPanels();
      slider, touch := false, None;
    }

    // -------------------------------------------------------------------------
    // Items

    /** `zuck.navigateItem(direction, event)`. */
    method NavigateItem(dir: Dir, withEvent: bool, hooks: Hooks) returns (thrown: bool)
      modifies this
      ensures var o := Navigation.NavigateItem(env, old(Snap()), dir, withEvent, hooks);
              Snap() == o.state && thrown == o.Threw?
      ensures old(Valid()) ==> Valid()
      ensures old(SingleMedia(Snap())) ==> SingleMedia(Snap())
    {
      ghost var s0 := Snap();
      if Inv(s0) {
        NavigateItemKeepsInv(env, s0, dir, withEvent, hooks);
      }
      if SingleMedia(s0) {
        NavigateItemKeepsSingleMedia(env, s0, dir, withEvent, hooks);
      }
      thrown := NavigateItemBody(dir, withEvent, hooks);
    }

    /** The steps of `NavigateItem`, one statement of the handler at a time. */
    method NavigateItemBody(dir: Dir, withEvent: bool, hooks: Hooks) returns (thrown: bool)
      modifies this
      ensures var o := Navigation.NavigateItem(env, old(Snap()), dir, withEvent, hooks);
              Snap() == o.state && thrown == o.Threw?
    {
      ghost var s := Snap();
      if currentStory.None? || currentStory.value !in data {
        return true;
      }
      var c := currentStory.value;
      var cur := data[c].currentItem;
      var k := Find(dom, OfStory(c));
      if k.None? {
        return false;
      }
      var p := dom[k.value];
      var target := if dir == Backward then cur - 1 else cur + 1;
      if !(0 <= target < |p.items|) {
        if dir == Forward {
          assert Navigation.NavigateItem(env, s, dir, withEvent, hooks) == Navigation.ModalNext(env, s, hooks);
          thrown := ModalNextBody(hooks);
        } else {
          thrown := false;
        }
        return;
      }
      calls := calls + [OnNavigateItem(c)];
      if !hooks.navigate {
        return false;
      }
      if cur >= |p.items| {
        return true;
      }
      var p1 := p.(items := StepFlags(p.items, cur, target, dir));
      NavigateItemProceedUnfold(env, s, k.value, dir, withEvent, hooks, c, cur, target, p1);
      ProceedToItem(k.value, p1, c, target, withEvent);
      thrown := false;
    }

    /** `navigateItemCallback` once the callback lets the step happen: panel `k` takes
        the new flags, the story its new current item, and the target item plays. */
    method ProceedToItem(k: nat, p1: Panel, c: StoryId, target: nat, withEvent: bool)
      requires k < |dom| && c in data
      modifies this
      ensures Snap() == Play(Proceeded(old(Snap()), k, p1, c, target), p1, target, withEvent)
    {
      ghost var s0 := Snap();
      dom := dom[k := p1];
      data := data[c := data[c].(currentItem := target)];
      assert Snap() == Proceeded(s0, k, p1, c, target);
      PlayVideoItem(p1, target, withEvent);
    }

    // -------------------------------------------------------------------------
    // Gestures

    /** `touchStart`. */
    method TouchStart(onLink: bool, x: int, y: int, now: int) returns (thrown: bool)
      modifies this
      ensures var o := Navigation.TouchStart(env, old(Snap()), onLink, x, y, now);
              Snap() == o.state && thrown == o.Threw?
      ensures old(Valid()) ==> Valid()
      ensures old(SingleMedia(Snap())) ==> SingleMedia(Snap())
    {
      ghost var s0 := Snap();
      if Inv(s0) {
        TouchStartKeepsInv(env, s0, onLink, x, y, now);
      }
      if SingleMedia(s0) {
        TouchStartKeepsSingleMedia(env, s0, onLink, x, y, now);
      }
      thrown := TouchStartBody(onLink, x, y, now);
    }

    /** The steps of `TouchStart`, one statement of the handler at a time. */
    method TouchStartBody(onLink: bool, x: int, y: int, now: int) returns (thrown: bool)
      modifies this
      ensures var o := Navigation.TouchStart(env, old(Snap()), onLink, x, y, now);
              Snap() == o.state && thrown == o.Threw?
    {
      if touch.None? || onLink {
        return false;
      }
      if |dom| == 0 {
        return true;
      }
      var t := touch.value;
      var vk := Find(dom, WithRole(Viewing));
      var pos := if vk.Some? then env.host.viewingLeft else 0;
      var off := Offset(x, y, now, !InReservedBand(y, env.host.slideHeight));
      if !off.valid {
        touch := Some(t.(position := pos, offset := Some(off)));
        return false;
      }
      touch := Some(t.(position := pos, offset := Some(off), scrolling := None, delta := Blank,
                       listening := true, nextTimer := true, tapTimers := t.tapTimers + 1));
      if vk.Some? {
        dom := dom[vk.value := dom[vk.value].(paused := true)];
      }
      PauseVideoItem();
      thrown := false;
    }

    /** `touchMove`. */
    method TouchMove(x: int, y: int)
      modifies this
      ensures Snap() == Navigation.TouchMove(env, old(Snap()), x, y)
      ensures old(Valid()) ==> Valid()
      ensures old(SingleMedia(Snap())) ==> SingleMedia(Snap())
    {
      ghost var s0 := Snap();
      if Inv(s0) {
        TouchMoveKeepsInv(env, s0, x, y);
      }
      if SingleMedia(s0) {
        TouchMoveKeepsSingleMedia(env, s0, x, y);
      }
      TouchMoveBody(x, y);
    }

    /** The steps of `TouchMove`, one statement of the handler at a time. */
    method TouchMoveBody(x: int, y: int)
      modifies this
      ensures Snap() == Navigation.TouchMove(env, old(Snap()), x, y)
    {
      if touch.None? {
        return;
      }
      var t := touch.value;
      if !(t.listening && t.offset.Some? && t.offset.value.valid) {
        return;
      }
      var dx, dy := x - t.offset.value.x, y - t.offset.value.y;
      var scrolling := if t.scrolling.None? then IsScroll(dx, dy) else t.scrolling.value;
      touch := Some(t.(delta := Moved(dx, dy), scrolling := Some(scrolling)));
      if !scrolling {
        Translate(t.position + dx);
      }
    }

    /** The `if (delta)` block of `touchEnd`, for the closure `t`. */
    method ReleaseDrag(t: Touch, now: int)
      modifies this
      ensures Snap() == Release(env, old(Snap()), t, now)
    {
      if t.delta.Unset? || t.scrolling == Some(true) {
        return;
      }
      var elapsed := if t.offset.Some? then Some(now - t.offset.value.time) else None;
      var forward := DragForward(t.delta);
      var neighbour := Find(dom, WithRole(if forward then Next else Previous)).Some?;
      if IsCommit(elapsed, t.delta, env.host.slideWidth) && neighbour {
        MoveStoryItemBody(forward);
      } else {
        Translate(t.position);
      }
    }

    /** `touchEnd` playing `p`'s active item again and unpausing it. */
    method ResumeViewer(p: Panel)
      modifies this
      ensures Snap() == Resume(old(Snap()), p)
    {
      var a := FirstItem(p.items, IsActive);
      PlayVideoItem(p, if a.Some? then a.value as int else -1, false);
      var j := Find(dom, WithUid(p.uid));
      if j.Some? {
        dom := dom[j.value := dom[j.value].(paused := false)];
      }
    }

    /** `touchEnd` up to its tap test, for the closure `t`; `video` is the current
        video once the drag is released. */
    method SettleTouch(t: Touch, now: int) returns (video: Option<VideoRef>)
      modifies this
      ensures video == Release(env, old(Snap()), t, now).currentVideo
      ensures Snap() == Settle(env, old(Snap()), t, now)
    {
      var vk := Find(dom, WithRole(Viewing));
      var viewer := if vk.Some? then Some(dom[vk.value]) else None;
      ReleaseDrag(t, now);
      video := currentVideo;
      touch := Some(Released(t));
      if viewer.Some? {
        ResumeViewer(viewer.value);
      }
    }

    /** `touchEnd`. */
    method TouchEnd(now: int, hooks: Hooks) returns (thrown: bool)
      modifies this
      ensures var o := Navigation.TouchEnd(env, old(Snap()), now, hooks);
              Snap() == o.state && thrown == o.Threw?
      ensures old(Valid()) ==> Valid()
      ensures old(SingleMedia(Snap()) && VideoInFocus(Snap())) ==> SingleMedia(Snap())
    {
      ghost var s0 := Snap();
      if Inv(s0) {
        TouchEndKeepsInv(env, s0, now, hooks);
      }
      if SingleMedia(s0) && VideoInFocus(s0) {
        TouchEndKeepsSingleMedia(env, s0, now, hooks);
      }
      thrown := TouchEndBody(now, hooks);
    }

    /** The steps of `TouchEnd`, one statement of the handler at a time. */
    method TouchEndBody(now: int, hooks: Hooks) returns (thrown: bool)
      modifies this
      ensures var o := Navigation.TouchEnd(env, old(Snap()), now, hooks);
              Snap() == o.state && thrown == o.Threw?
    {
      if touch.None? {
        return false;
      }
      var t := touch.value;
      if !t.listening || (t.offset.Some? && !t.offset.value.valid) {
        return false;
      }
      ghost var s := Snap();
      var video := SettleTouch(t, now);
      if !t.nextTimer {
        return false;
      }
      ghost var s2 := Snap();
      touch := Some(Released(t).(nextTimer := false, tapTimers := Dec(t.tapTimers)));
      ghost var s3 := Snap();
      assert s3 == s2.(touch := Some(Released(t).(nextTimer := false, tapTimers := Dec(t.tapTimers))));
      assert Navigation.TouchEnd(env, s, now, hooks) == TapBranch(env, s3, video, t.offset, hooks);
      thrown := TapBranchBody(video, t.offset, hooks);
    }

    /** The unmute-or-tap test at the end of `touchEnd`. */
    method TapBranchBody(video: Option<VideoRef>, last: Option<Offset>, hooks: Hooks) returns (thrown: bool)
      modifies this
      ensures var o := TapBranch(env, old(Snap()), video, last, hooks);
              Snap() == o.state && thrown == o.Threw?
    {
      var vn := Find(dom, WithRole(Viewing));
      if vn.Some? && video.Some? && dom[vn.value].muted {
        UnmuteVideoItem(video.value, Some(dom[vn.value].uid));
        return false;
      }
      if last.None? {
        return true;
      }
      var dir := if TapForward(last.value.x, env.host.screenWidth, env.config.previousTap) then Forward else Backward;
      thrown := NavigateItemBody(dir, true, hooks);
    }

    /** The oldest pending 250 ms timer of the gesture closure fires. */
    method NextTimerElapses()
      modifies this
      ensures Snap() == Navigation.NextTimerElapses(old(Snap()))
      ensures old(Valid()) ==> Valid()
      ensures old(SingleMedia(Snap())) ==> SingleMedia(Snap())
    {
      ghost var s0 := Snap();
      if Inv(s0) {
        NextTimerKeepsInv(s0);
      }
      if SingleMedia(s0) {
        NextTimerKeepsSingleMedia(s0);
      }
      NextTimerElapsesBody();
    }

    /** The steps of `NextTimerElapses`, one statement of the handler at a time. */
    method NextTimerElapsesBody()
      modifies this
      ensures Snap() == Navigation.NextTimerElapses(old(Snap()))
    {
      if touch.Some? && touch.value.tapTimers > 0 {
        var t := touch.value;
        touch := Some(t.(nextTimer := false, tapTimers := t.tapTimers - 1));
      }
    }
  }
}
