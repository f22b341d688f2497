// The story viewer as a state machine. `State` gathers what the handlers of
// `ZuckJS` read and write: `zuck.data`, the timeline order, `zuck.internalData`,
// the key/value store, the modal slider and its panels, the media that are playing,
// the pending `moveStoryItem` timeouts, the closure of `createStoryTouchEvents`, and
// the log of user callbacks invoked. Each handler is a function from the old state.
//
// A handler that raises a TypeError stops where it stands: `Threw(s)` carries the
// state reached before the failing statement, which is what the page keeps.
module Navigation {
  import opened Common
  import opened Storage
  import opened Gesture
  import opened Timeline
  import opened Panels

  /** The options the handlers consult. */
  datatype Config = Config(previousTap: bool, cubeEffect: bool, localStorage: bool, reactive: bool)

  /** Layout and browser facts the handlers read: `modalContainer.slideWidth` and
      `slideHeight`, the modal's `offsetWidth`, `window.screen.width`, the `findPos`
      left offsets of the three panel roles, and whether the store accepts writes. */
  datatype Host = Host(slideWidth: int, slideHeight: int, modalWidth: nat, screenWidth: int,
                       previousLeft: int, viewingLeft: int, nextLeft: int, storageWritable: bool)

  /** The fixed context of one `ZuckJS` instance; `id` is the timeline element's id. */
  datatype Env = Env(config: Config, host: Host, id: string)

  /** Whether each user callback calls its `callback` argument before returning. */
  datatype Hooks = Hooks(open: bool, navigate: bool, end: bool, close: bool)

  /** One invocation of a user callback, with the story id it receives. */
  datatype Call =
    | OnOpen(story: StoryId)
    | OnView(story: StoryId)
    | OnNavigateItem(story: StoryId)
    | OnEnd(current: Option<StoryId>)
    | OnClose(current: Option<StoryId>)

  /** `touchOffset`. */
  datatype Offset = Offset(x: int, y: int, time: int, valid: bool)

  /** The closure of `createStoryTouchEvents`: `touchOffset`, `delta`, `isScrolling`,
      `position.x`, whether `touchMove`/`touchEnd` are listening, whether `nextTimer`
      is set, and how many 250 ms timers of this closure have not fired yet. */
  datatype Touch = Touch(offset: Option<Offset>, delta: Delta, scrolling: Option<bool>, position: int,
                         listening: bool, nextTimer: bool, tapTimers: nat)

  const FreshTouch: Touch := Touch(None, Unset, None, 0, false, false, 0)

  /** A `moveStoryItem` timeout that has not fired: what its closure captured, the
      `modalSlider` element included (as the generation of the slider shown then). */
  datatype PendingMove = PendingMove(target: Role, useless: Role, targetUid: nat,
                                     targetStory: StoryId, viewingUid: Option<nat>, slider: nat)

  datatype State = State(
    data: map<StoryId, Story>,
    order: seq<StoryId>,
    currentStory: Option<StoryId>,
    seenItems: SeenMap,
    store: Store,
    slider: bool,               // `#zuck-modal-slider-<id>` is in the document
    offset: int,                // the last offset `translate` applied to it
    sliderGen: nat,             // how many times `modal.show` has built a slider
    dom: seq<Panel>,            // its children, in document order
    nextUid: nat,
    currentVideo: Option<VideoRef>,
    playing: set<VideoRef>,
    pending: seq<PendingMove>,  // in the order they will fire
    touch: Option<Touch>,       // None: no gesture listeners on the current slider
    calls: seq<Call>)

  datatype Outcome = Done(state: State) | Threw(state: State)

  /** The `findPos` left offset of the panel with role `r`. */
  function Left(h: Host, r: Role): int
  {
    match r
    case Previous => h.previousLeft
    case Viewing => h.viewingLeft
    case Next => h.nextLeft
  }

  /** The direction `getStoryMorningGlory(target)` looks in. */
  function DirOf(r: Role): Dir
  {
    if r == Next then Forward else Backward
  }

  function Dec(n: nat): nat
  {
    if n == 0 then 0 else n - 1
  }

  /** The stories whose data says seen. */
  function SeenStories(data: map<StoryId, Story>): set<StoryId>
  {
    set sid | sid in data && data[sid].seen
  }

  /** A new instance: nothing on screen, the seen map read back from the store. */
  function Init(env: Env, data: map<StoryId, Story>, order: seq<StoryId>, store: Store): (s: State)
    ensures s.seenItems == InitialSeen(store, env.config.localStorage, env.id)
    ensures !s.slider && s.dom == [] && s.currentVideo.None? && s.playing == {} && s.pending == []
  {
    State(data, order, None, InitialSeen(store, env.config.localStorage, env.id), store,
          false, 0, 0, [], 0, None, {}, [], None, [])
  }

  // ---------------------------------------------------------------------------
  // Media

  /** `pauseVideoItem`. */
  function Pause(s: State): State
  {
    match s.currentVideo
    case None => s
    case Some(v) => s.(playing := s.playing - {v})
  }

  /** `unmuteVideoItem(video, storyViewer)`: the video plays unmuted, its panel may lose
      `muted` and the viewer loses `paused`. */
  function Unmute(s: State, v: VideoRef, viewer: Option<nat>): State
  {
    s.(playing := s.playing + {v}, dom := Unpause(DropMuted(s.dom, v), viewer))
  }

  /** The `volumechange` handler, bound only to the first video of a panel, drops that
      panel's `muted` class. */
  function DropMuted(dom: seq<Panel>, v: VideoRef): seq<Panel>
  {
    match Find(dom, WithUid(v.uid))
    case None => dom
    case Some(j) =>
      if FirstItem(dom[j].items, HasVideoElement) == Some(v.index) then dom[j := dom[j].(muted := false)]
      else dom
  }

  /** The viewer passed to `unmuteVideoItem` loses its `paused` class. */
  function Unpause(dom: seq<Panel>, viewer: Option<nat>): seq<Panel>
  {
    match viewer
    case None => dom
    case Some(u) =>
      match Find(dom, WithUid(u))
      case None => dom
      case Some(j) => dom[j := dom[j].(paused := false)]
  }

  /** `playVideoItem(storyViewer, elements, unmute)` on item `index` of panel `p`;
      `unmute` stands for an event object with a `target`. */
  function Play(s: State, p: Panel, index: int, unmute: bool): State
  {
    if !(0 <= index < |p.items|) then s
    else
      var paused := Pause(s);
      var it := p.items[index];
      if !it.isVideo || !it.hasVideo then paused.(currentVideo := None)
      else
        var v := VideoRef(p.uid, index);
        var started := paused.(currentVideo := Some(v), playing := paused.playing + {v});
        if unmute then Unmute(started, v, Some(p.uid)) else started
  }

  // ---------------------------------------------------------------------------
  // The slider

  /** `translate(modalSlider, to, ...)`: in cube mode a rotation beyond a quarter turn
      is refused; without a slider element nothing is applied. */
  function Translate(env: Env, s: State, to: int): State
  {
    if env.config.cubeEffect && CubeAborts(to, env.host.modalWidth) then s
    else if !s.slider then s
    else s.(offset := to)
  }

  /** Removing media elements from the document pauses them. */
  function ClearSlider(s: State): State
  {
    s.(dom := [], playing := set v | v in s.playing && Find(s.dom, WithUid(v.uid)).None?)
  }

  function RemovePanel(s: State, k: nat): State
    requires k < |s.dom|
  {
    s.(dom := RemoveAt(s.dom, k), playing := set v | v in s.playing && v.uid != s.dom[k].uid)
  }

  /** `createStoryViewer(storyData, className, forcePlay)`. A panel for the story
      already in the slider makes it return at once; otherwise the story's items
      before the current one are marked seen, the panel is built (and its current item
      played when it is the viewing one) and then prepended or appended to the slider,
      which throws when the slider element is gone. */
  function CreateViewer(env: Env, s: State, sid: StoryId, role: Role, forcePlay: bool): (r: Outcome)
    requires sid in s.data
    ensures r.state.data.Keys == s.data.Keys && r.state.order == s.order
  {
    if Find(s.dom, OfStory(sid)).Some? then Done(s)
    else Attach(Staged(s, sid, role, forcePlay), RenderPanel(s, sid, role, forcePlay), role)
  }

  /** The panel `createStoryViewer` builds: a fresh uid, the role, the rendered item
      flags, the `muted` class, and `stopped` unless playing is forced. */
  function RenderPanel(s: State, sid: StoryId, role: Role, forcePlay: bool): Panel
    requires sid in s.data
  {
    var st := s.data[sid];
    Panel(s.nextUid, sid, {role}, Views(MarkSeenBefore(st.items, st.currentItem), st.currentItem), true, !forcePlay, false)
  }

  /** The state after the item loop of `createStoryViewer` marked the story's items
      and the panel took its uid. */
  function Rendered(s: State, sid: StoryId): State
    requires sid in s.data
  {
    var st := s.data[sid];
    s.(data := s.data[sid := st.(items := MarkSeenBefore(st.items, st.currentItem))], nextUid := s.nextUid + 1)
  }

  /** The state before the panel is attached: the viewing panel's current item plays. */
  function Staged(s: State, sid: StoryId, role: Role, forcePlay: bool): State
    requires sid in s.data
  {
    var s1 := Rendered(s, sid);
    if role == Viewing then Play(s1, RenderPanel(s, sid, role, forcePlay), s.data[sid].currentItem, false) else s1
  }

  /** The last step of `createStoryViewer`: prepending (previous) or appending `p`,
      which throws when the slider element is gone. */
  function Attach(s: State, p: Panel, role: Role): Outcome
  {
    if !s.slider then Threw(s)
    else if role == Previous then Done(s.(dom := [p] + s.dom))
    else Done(s.(dom := s.dom + [p]))
  }

  /** `moveStoryItem(forward)`: without a panel in the target role nothing happens;
      otherwise the slider is translated towards it and the timeout is scheduled with
      the target and viewing panels captured. */
  function MoveStory(env: Env, s: State, forward: bool): State
  {
    var target := if forward then Next else Previous;
    match Find(s.dom, WithRole(target))
    case None => s
    case Some(k) =>
      var to := if env.config.cubeEffect then (if forward then -env.host.slideWidth else env.host.slideWidth)
                else -Left(env.host, target);
      var s1 := Translate(env, s, to);
      var viewing := Find(s.dom, WithRole(Viewing));
      var m := PendingMove(target, Opposite(target), s.dom[k].uid, s.dom[k].story,
                           if viewing.Some? then Some(s.dom[viewing.value].uid) else None, s.sliderGen);
      s1.(pending := s1.pending + [m])
  }

  /** The first part of the timeout: the target's story becomes current, the first
      panel in the useless role is removed, the captured viewing panel takes the useless
      role and the captured target becomes viewing (when they are still attached). */
  function Rotate(s: State, m: PendingMove): State
  {
    var s2 := DropRole(s.(currentStory := Some(m.targetStory)), m.useless);
    s2.(dom := PromoteUid(RetireUid(s2.dom, m.viewingUid, m.useless), m.targetUid, m.target))
  }

  /** Removing the first panel in role `r`, if any. */
  function DropRole(s: State, r: Role): State
  {
    match Find(s.dom, WithRole(r))
    case None => s
    case Some(k) => RemovePanel(s, k)
  }

  /** Retiring the panel with uid `u`, if it is attached. */
  function RetireUid(dom: seq<Panel>, u: Option<nat>, useless: Role): seq<Panel>
  {
    match u
    case None => dom
    case Some(w) =>
      match Find(dom, WithUid(w))
      case None => dom
      case Some(j) => dom[j := Retire(dom[j], useless)]
  }

  /** Promoting the panel with uid `u`, if it is attached. */
  function PromoteUid(dom: seq<Panel>, u: nat, target: Role): seq<Panel>
  {
    match Find(dom, WithUid(u))
    case None => dom
    case Some(j) => dom[j := Promote(dom[j], target)]
  }

  /** The last part of the timeout: the new current story's panel takes its active item
      as `currentItem`, the captured slider returns to 0, the item plays and `onView` is
      called. A panel without an active item makes `items[0].firstElementChild` throw. */
  function Focus(env: Env, s: State, sid: StoryId, slider: nat): Outcome
  {
    match Find(s.dom, OfStory(sid))
    case None =>
      var s1 := ResetSlider(env, s, slider);
      Done(s1.(calls := s1.calls + [OnView(sid)]))
    case Some(k) =>
      var p := s.dom[k];
      match FirstItem(p.items, IsActive)
      case None => Threw(s)
      case Some(a) =>
        if sid !in s.data then Threw(s)
        else
          var s1 := s.(data := s.data[sid := s.data[sid].(currentItem := a)]);
          var s2 := Play(ResetSlider(env, s1, slider), p, a, false);
          Done(s2.(calls := s2.calls + [OnView(sid)]))
  }

  /** `translate(modalSlider, '0', 0, null)` on the slider element a timeout captured.
      Once `modal.show` has rebuilt the modal content that element is detached, and the
      slider on screen keeps its offset. */
  function ResetSlider(env: Env, s: State, captured: nat): State
  {
    if captured == s.sliderGen then Translate(env, s, 0) else s
  }

  /** The 650 ms timeout of the oldest pending `moveStoryItem` fires. */
  function Complete(env: Env, s: State): Outcome
    requires |s.pending| > 0
  {
    var m := s.pending[0];
    var s1 := Rotate(s.(pending := s.pending[1..]), m);
    match Sibling(s1.order, s1.data.Keys, s1.currentStory, DirOf(m.target))
    case TimelineElementMissing => Threw(s1)
    case Adjacent(n) =>
      var o := if n.Some? then CreateViewer(env, s1, n.value, m.target, false) else Done(s1);
      if o.Threw? then o else Focus(env, o.state, m.targetStory, m.slider)
  }

  // ---------------------------------------------------------------------------
  // Modal

  /** `modal.show(storyId)`: after `onOpen` proceeds the slider is rebuilt with fresh
      gesture listeners, and the previous, viewing and next panels are created. */
  function ModalShow(env: Env, s: State, sid: StoryId, hooks: Hooks): Outcome
  {
    var s0 := s.(calls := s.calls + [OnOpen(sid)]);
    if !hooks.open then Done(s0)
    else
      var s1 := OpenSlider(s0);
      if sid !in s1.data then Threw(s1)
      else ShowViewers(env, s1.(touch := Some(FreshTouch), currentStory := Some(sid)), sid)
  }

  /** `modal.show`'s fresh slider: the old content is removed, a new slider element is
      added at offset 0, and the gesture listeners are not yet bound. */
  function OpenSlider(s: State): State
  {
    ClearSlider(s).(slider := true, offset := 0, sliderGen := s.sliderGen + 1, touch := None)
  }

  /** The previous and viewing panels of `modal.show`, then the next one. */
  function ShowViewers(env: Env, s: State, sid: StoryId): Outcome
    requires sid in s.data
  {
    match Sibling(s.order, s.data.Keys, s.currentStory, Backward)
    case TimelineElementMissing => Threw(s)
    case Adjacent(prev) =>
      var o1 := if prev.Some? then CreateViewer(env, s, prev.value, Previous, false) else Done(s);
      if o1.Threw? then o1
      else
        var o2 := CreateViewer(env, o1.state, sid, Viewing, true);
        if o2.Threw? then o2
        else ShowNext(env, o2.state, sid)
  }

  function ShowNext(env: Env, s: State, sid: StoryId): Outcome
  {
    match Sibling(s.order, s.data.Keys, s.currentStory, Forward)
    case TimelineElementMissing => Threw(s)
    case Adjacent(next) =>
      var o := if next.Some? then CreateViewer(env, s, next.value, Next, false) else Done(s);
      if o.Threw? then o else Done(o.state.(calls := o.state.calls + [OnView(sid)]))
  }

  /** The seen bookkeeping of `modal.next`, done when the current story has a timeline
      element: its data and its `seenItems` entry become true and `seenItems` is saved.
      Then `updateStorySeenPosition` runs `zuck.update(data, true)` on every seen story
      of the timeline; unless `reactive`, that moves them to the end of the timeline and
      rebuilds their items. */
  function MarkSeen(env: Env, s: State): Outcome
  {
    if s.currentStory.None? || s.currentStory.value !in s.order then Done(s)
    else
      var c := s.currentStory.value;
      if c !in s.data then Threw(s)
      else
        var data := s.data[c := s.data[c].(seen := true)];
        var seen := s.seenItems[c := true];
        var s1 := s.(data := data, seenItems := seen,
                     store := Save(s.store, env.config.localStorage, env.host.storageWritable, env.id, "seenItems", seen));
        if env.config.reactive then Done(s1)
        else Done(s1.(data := Reparse(data, s.order), order := SeenToEnd(s.order, SeenStories(data))))
  }

  /** `zuck.data` once `zuck.update(data, true)` has run on every seen story of the
      timeline without `reactive`: each is rebuilt in the markup by `zuck.addItem`, and
      each `parseItems` call replaces its items by what it reads back. */
  function Reparse(data: map<StoryId, Story>, order: seq<StoryId>): map<StoryId, Story>
  {
    map sid | sid in data :: if sid in order && data[sid].seen then data[sid].(items := Reparsed(data[sid].items)) else data[sid]
  }

  /** `modal.next()`. */
  function ModalNext(env: Env, s: State, hooks: Hooks): Outcome
  {
    var s0 := s.(calls := s.calls + [OnEnd(s.currentStory)]);
    if !hooks.end then Done(s0)
    else
      var o := MarkSeen(env, s0);
      if o.Threw? then o else Done(AfterEnd(env, o.state, hooks))
  }

  /** The end of `modal.next()`: without a next panel the modal closes, otherwise the
      slider moves to it. */
  function AfterEnd(env: Env, s: State, hooks: Hooks): State
  {
    if Find(s.dom, WithRole(Next)).None? then ModalClose(s, hooks) else MoveStory(env, s, true)
  }

  /** `modal.close()`: after `onClose` proceeds the modal content, slider included, is
      emptied. */
  function ModalClose(s: State, hooks: Hooks): State
  {
    var s0 := s.(calls := s.calls + [OnClose(s.currentStory)]);
    if !hooks.close then s0
    else ClearSlider(s0).(slider := false, touch := None)
  }

  // ---------------------------------------------------------------------------
  // Items

  /** `zuck.navigateItem(direction, event)`, alias `zuck.nextItem`. */
  function NavigateItem(env: Env, s: State, dir: Dir, withEvent: bool, hooks: Hooks): Outcome
  {
    if s.currentStory.None? || s.currentStory.value !in s.data then Threw(s)
    else
      var c := s.currentStory.value;
      var cur := s.data[c].currentItem;
      match Find(s.dom, OfStory(c))
      case None => Done(s)
      case Some(k) =>
        var p := s.dom[k];
        var target := if dir == Backward then cur - 1 else cur + 1;
        if 0 <= target < |p.items| then
          var s0 := s.(calls := s.calls + [OnNavigateItem(c)]);
          if !hooks.navigate then Done(s0)
          else if cur >= |p.items| then Threw(s0)
          else
            var p1 := p.(items := StepFlags(p.items, cur, target, dir));
            Done(Play(Proceeded(s0, k, p1, c, target), p1, target, withEvent))
        else if dir == Forward then ModalNext(env, s, hooks)
        else Done(s)
  }

  /** The outcome of a `navigateItem` whose callback lets it proceed to `target`. */
  lemma NavigateItemProceedUnfold(env: Env, s: State, k: nat, dir: Dir, withEvent: bool, hooks: Hooks,
                                  c: StoryId, cur: nat, target: int, p1: Panel)
    requires s.currentStory == Some(c) && c in s.data && cur == s.data[c].currentItem
    requires Find(s.dom, OfStory(c)) == Some(k) && hooks.navigate
    requires target == (if dir == Backward then cur - 1 else cur + 1)
    requires cur < |s.dom[k].items| && 0 <= target < |s.dom[k].items|
    requires p1 == s.dom[k].(items := StepFlags(s.dom[k].items, cur, target, dir))
    ensures NavigateItem(env, s, dir, withEvent, hooks) ==
            Done(Play(Proceeded(s.(calls := s.calls + [OnNavigateItem(c)]), k, p1, c, target), p1, target, withEvent))
  {
  }

  /** The state once `navigateItemCallback` has put the re-flagged panel `p1` at `k` and
      recorded `target` as story `c`'s current item, before the target's video plays. */
  function Proceeded(s: State, k: nat, p1: Panel, c: StoryId, target: nat): State
    requires k < |s.dom| && c in s.data
  {
    s.(dom := s.dom[k := p1], data := s.data[c := s.data[c].(currentItem := target)])
  }

  // ---------------------------------------------------------------------------
  // Gestures

  /** `touchStart` (also `mousedown`). */
  function TouchStart(env: Env, s: State, onLink: bool, x: int, y: int, now: int): Outcome
  {
    match s.touch
    case None => Done(s)
    case Some(t) =>
      if onLink then Done(s)
      else if |s.dom| == 0 then Threw(s)
      else
        var vk := Find(s.dom, WithRole(Viewing));
        var pos := if vk.Some? then env.host.viewingLeft else 0;
        var off := Offset(x, y, now, !InReservedBand(y, env.host.slideHeight));
        if !off.valid then Done(s.(touch := Some(t.(position := pos, offset := Some(off)))))
        else
          var t1 := t.(position := pos, offset := Some(off), scrolling := None, delta := Blank,
                       listening := true, nextTimer := true, tapTimers := t.tapTimers + 1);
          var dom1 := if vk.Some? then s.dom[vk.value := s.dom[vk.value].(paused := true)] else s.dom;
          Done(Pause(s.(touch := Some(t1), dom := dom1)))
  }

  /** `touchMove` (also `mousemove`), while listening after a valid start. */
  function TouchMove(env: Env, s: State, x: int, y: int): State
  {
    match s.touch
    case None => s
    case Some(t) =>
      if !(t.listening && t.offset.Some? && t.offset.value.valid) then s
      else
        var dx, dy := x - t.offset.value.x, y - t.offset.value.y;
        var scrolling := if t.scrolling.None? then IsScroll(dx, dy) else t.scrolling.value;
        var s1 := s.(touch := Some(t.(delta := Moved(dx, dy), scrolling := Some(scrolling))));
        if !scrolling then Translate(env, s1, t.position + dx) else s1
  }

  /** The `if (delta)` block of `touchEnd`: a committed drag towards an existing
      neighbour moves the story, any other horizontal drag snaps back. */
  function Release(env: Env, s: State, t: Touch, now: int): State
  {
    if t.delta.Unset? then s
    else
      var elapsed := if t.offset.Some? then Some(now - t.offset.value.time) else None;
      var forward := DragForward(t.delta);
      var neighbour := Find(s.dom, WithRole(if forward then Next else Previous)).Some?;
      if t.scrolling == Some(true) then s
      else if IsCommit(elapsed, t.delta, env.host.slideWidth) && neighbour then MoveStory(env, s, forward)
      else Translate(env, s, t.position)
  }

  /** The touch closure after `touchEnd`'s `if (delta)` block. */
  function Released(t: Touch): Touch
  {
    if t.delta.Unset? then t else t.(offset := None, listening := false)
  }

  /** `touchEnd` playing the viewing panel's active item again and unpausing it. */
  function Resume(s: State, p: Panel): State
  {
    var idx := match FirstItem(p.items, IsActive) case Some(a) => a as int case None => -1;
    var s1 := Play(s, p, idx, false);
    match Find(s1.dom, WithUid(p.uid))
    case None => s1
    case Some(j) => s1.(dom := s1.dom[j := s1.dom[j].(paused := false)])
  }

  /** The tap of `touchEnd`: next when right of the first third of the screen or when
      `previousTap` is off. `lastTouchOffset` being undefined throws. */
  function Tap(env: Env, s: State, last: Option<Offset>, hooks: Hooks): Outcome
  {
    match last
    case None => Threw(s)
    case Some(o) =>
      var dir := if TapForward(o.x, env.host.screenWidth, env.config.previousTap) then Forward else Backward;
      NavigateItem(env, s, dir, true, hooks)
  }

  /** `touchEnd` up to its tap test: the release, then the viewing panel found at the
      start of the handler plays its active item again and is unpaused. */
  function Settle(env: Env, s: State, t: Touch, now: int): State
  {
    var vk := Find(s.dom, WithRole(Viewing));
    var s1 := Release(env, s, t, now).(touch := Some(Released(t)));
    if vk.Some? then Resume(s1, s.dom[vk.value]) else s1
  }

  /** `touchEnd` (also `mouseup` and `mouseleave`), while listening. */
  function TouchEnd(env: Env, s: State, now: int, hooks: Hooks): Outcome
  {
    match s.touch
    case None => Done(s)
    case Some(t) =>
      if !t.listening || (t.offset.Some? && !t.offset.value.valid) then Done(s)
      else
        var video := Release(env, s, t, now).currentVideo;
        var s2 := Settle(env, s, t, now);
        if !t.nextTimer then Done(s2)
        else
          TapBranch(env, s2.(touch := Some(Released(t).(nextTimer := false, tapTimers := Dec(t.tapTimers)))),
                    video, t.offset, hooks)
  }

  /** What `touchEnd` does once its tap timer is consumed: a muted viewing panel is
      unmuted with the video that was current at release, anything else is a tap. */
  function TapBranch(env: Env, s3: State, video: Option<VideoRef>, last: Option<Offset>, hooks: Hooks): Outcome
  {
    var vn := Find(s3.dom, WithRole(Viewing));
    if vn.Some? && video.Some? && s3.dom[vn.value].muted then
      Done(Unmute(s3, video.value, Some(s3.dom[vn.value].uid)))
    else Tap(env, s3, last, hooks)
  }

  /** The oldest pending 250 ms timer of the current gesture closure fires. */
  function NextTimerElapses(s: State): State
  {
    match s.touch
    case None => s
    case Some(t) =>
      if t.tapTimers == 0 then s
      else s.(touch := Some(t.(nextTimer := false, tapTimers := t.tapTimers - 1)))
  }

  // ---------------------------------------------------------------------------
  // Invariants

  /** A panel agrees with the story data it was rendered from. */
  predicate PanelMatchesData(p: Panel, data: map<StoryId, Story>)
  {
    p.story in data && |p.items| == |data[p.story].items| &&
    (forall k :: 0 <= k < |p.items| ==>
       (p.items[k].active <==> k == data[p.story].currentItem) &&
       p.items[k].isVideo == data[p.story].items[k].isVideo &&
       p.items[k].hasVideo == data[p.story].items[k].hasVideo) &&
    (forall k :: 0 <= k < |p.items| && k < data[p.story].currentItem ==> p.items[k].seen)
  }

  /** Every panel was rendered from the data, has a uid already handed out, and no two
      panels share a uid or a story. */
  predicate PanelsOk(dom: seq<Panel>, data: map<StoryId, Story>, nextUid: nat)
  {
    (forall i :: 0 <= i < |dom| ==> dom[i].uid < nextUid && PanelMatchesData(dom[i], data)) &&
    (forall i, j :: 0 <= i < j < |dom| ==> dom[i].uid != dom[j].uid && dom[i].story != dom[j].story)
  }

  /** What every handler keeps. */
  predicate Inv(s: State)
  {
    Distinct(s.order) && (forall sid :: sid in s.order ==> sid in s.data) &&
    (!s.slider ==> s.dom == [] && s.touch.None?) &&
    PanelsOk(s.dom, s.data, s.nextUid) &&
    (s.touch.Some? && s.touch.value.nextTimer ==> s.touch.value.tapTimers > 0)
  }

  /** At most one media element plays, and it is the current video. */
  predicate SingleMedia(s: State)
  {
    forall v :: v in s.playing ==> s.currentVideo == Some(v)
  }
}
