// `playVideoItem`, `pauseVideoItem` and `unmuteVideoItem`, and the single-media rule:
// at most one video plays, and it is `currentVideoElement`. Every handler keeps the
// rule, except that `touchEnd` unmutes a reference read before it replays the viewing
// panel; `TouchEndKeepsSingleMedia` names the condition under which that is harmless
// and `TouchEndCanBreakSingleMedia` shows a state where it is not.
module MediaLemmas {
  import opened Common
  import opened Gesture
  import opened Timeline
  import opened Panels
  import opened Navigation

  function AsSet(o: Option<VideoRef>): set<VideoRef>
  {
    if o.Some? then {o.value} else {}
  }

  /** `pauseVideoItem` stops the current video and changes nothing else. */
  lemma PauseStopsCurrent(s: State)
    ensures Pause(s).playing == s.playing - AsSet(s.currentVideo)
    ensures Pause(s) == s.(playing := Pause(s).playing)
  {
  }

  /** Without both the pointer and the item element, `playVideoItem` does nothing. */
  lemma PlayWithoutElements(s: State, p: Panel, index: int, unmute: bool)
    requires !(0 <= index < |p.items|)
    ensures Play(s, p, index, unmute) == s
  {
  }

  /** `playVideoItem` first pauses the previous current video, then makes the item's
      video current and plays it, or clears the current video when the item is not a
      video or has no `<video>` element. Only the unmute path touches the panels, and
      then only their `muted` and `paused` classes. */
  lemma PlayEffect(s: State, p: Panel, index: int, unmute: bool)
    requires 0 <= index < |p.items|
    ensures var r := Play(s, p, index, unmute);
            var it := p.items[index];
            (it.isVideo && it.hasVideo ==> r.currentVideo == Some(VideoRef(p.uid, index))) &&
            (!(it.isVideo && it.hasVideo) ==> r.currentVideo.None?) &&
            r.playing == (s.playing - AsSet(s.currentVideo)) + AsSet(r.currentVideo) &&
            r == s.(playing := r.playing, currentVideo := r.currentVideo, dom := r.dom) &&
            SameContent(s.dom, r.dom) && (!unmute ==> r.dom == s.dom)
  {
    var it := p.items[index];
    var paused := Pause(s);
    assert paused == s.(playing := s.playing - AsSet(s.currentVideo));
    if !it.isVideo || !it.hasVideo {
      assert Play(s, p, index, unmute) == paused.(currentVideo := None);
    } else {
      var v := VideoRef(p.uid, index);
      var started := paused.(currentVideo := Some(v), playing := paused.playing + {v});
      if unmute {
        UnmuteEffect(started, v, Some(p.uid));
        assert Play(s, p, index, unmute) == Unmute(started, v, Some(p.uid));
      } else {
        assert Play(s, p, index, unmute) == started;
      }
    }
  }

  /** Panels that differ at most in their `muted`, `paused`, `stopped` and role classes. */
  predicate SameContent(a: seq<Panel>, b: seq<Panel>)
  {
    |a| == |b| &&
    forall i :: 0 <= i < |a| ==> a[i].uid == b[i].uid && a[i].story == b[i].story && a[i].items == b[i].items
  }

  /** `unmuteVideoItem` plays `v` and clears at most the `muted` class of the video's own
      panel and the `paused` class of the viewer. */
  lemma UnmuteEffect(s: State, v: VideoRef, viewer: Option<nat>)
    ensures var r := Unmute(s, v, viewer);
            r.playing == s.playing + {v} && r == s.(playing := r.playing, dom := r.dom) &&
            SameContent(s.dom, r.dom) &&
            (forall i :: 0 <= i < |s.dom| ==> r.dom[i].roles == s.dom[i].roles && r.dom[i].stopped == s.dom[i].stopped)
  {
    var dom1 := DropMuted(s.dom, v);
    DropMutedKeepsFrame(s.dom, v);
    UnpauseKeepsFrame(dom1, viewer);
  }

  lemma DropMutedKeepsFrame(dom: seq<Panel>, v: VideoRef)
    ensures KeepsFrame(dom, DropMuted(dom, v))
  {
    match Find(dom, WithUid(v.uid))
    case None =>
    case Some(j) =>
      var r := dom[j := dom[j].(muted := false)];
      assert forall i :: 0 <= i < |dom| ==> r[i].uid == dom[i].uid && r[i].roles == dom[i].roles;
  }

  lemma UnpauseKeepsFrame(dom: seq<Panel>, viewer: Option<nat>)
    ensures KeepsFrame(dom, Unpause(dom, viewer))
  {
    if viewer.Some? {
      match Find(dom, WithUid(viewer.value))
      case None =>
      case Some(j) =>
        var r := dom[j := dom[j].(paused := false)];
        assert forall i :: 0 <= i < |dom| ==> r[i].uid == dom[i].uid && r[i].roles == dom[i].roles;
    }
  }

  /** Two slider contents that differ at most in the `muted` and `paused` classes. */
  predicate KeepsFrame(a: seq<Panel>, b: seq<Panel>)
  {
    SameContent(a, b) &&
    forall i :: 0 <= i < |a| ==> a[i].roles == b[i].roles && a[i].stopped == b[i].stopped
  }

  lemma PlayKeepsSingleMedia(s: State, p: Panel, index: int, unmute: bool)
    requires SingleMedia(s)
    ensures SingleMedia(Play(s, p, index, unmute))
  {
    if 0 <= index < |p.items| {
      PlayEffect(s, p, index, unmute);
    }
  }

  lemma PauseKeepsSingleMedia(s: State)
    requires SingleMedia(s)
    ensures SingleMedia(Pause(s))
  {
  }

  /** Unmuting the current video keeps the rule. */
  lemma UnmuteCurrentKeepsSingleMedia(s: State, v: VideoRef, viewer: Option<nat>)
    requires SingleMedia(s) && s.currentVideo == Some(v)
    ensures SingleMedia(Unmute(s, v, viewer))
  {
    UnmuteEffect(s, v, viewer);
  }

  lemma CreateViewerKeepsSingleMedia(env: Env, s: State, sid: StoryId, role: Role, forcePlay: bool)
    requires sid in s.data && SingleMedia(s)
    ensures SingleMedia(CreateViewer(env, s, sid, role, forcePlay).state)
  {
    if Find(s.dom, OfStory(sid)).None? {
      PlayKeepsSingleMedia(Rendered(s, sid), RenderPanel(s, sid, role, forcePlay), s.data[sid].currentItem, false);
      assert SingleMedia(Staged(s, sid, role, forcePlay));
    }
  }

  lemma RotateKeepsSingleMedia(s: State, m: PendingMove)
    requires SingleMedia(s)
    ensures SingleMedia(Rotate(s, m))
  {
  }

  lemma FocusKeepsSingleMedia(env: Env, s: State, sid: StoryId, slider: nat)
    requires SingleMedia(s)
    ensures SingleMedia(Focus(env, s, sid, slider).state)
  {
    var k := Find(s.dom, OfStory(sid));
    if k.Some? && FirstItem(s.dom[k.value].items, IsActive).Some? && sid in s.data {
      var a := FirstItem(s.dom[k.value].items, IsActive).value;
      var s1 := s.(data := s.data[sid := s.data[sid].(currentItem := a)]);
      PlayKeepsSingleMedia(ResetSlider(env, s1, slider), s.dom[k.value], a, false);
    }
  }

  lemma CompleteKeepsSingleMedia(env: Env, s: State)
    requires |s.pending| > 0 && SingleMedia(s)
    ensures SingleMedia(Complete(env, s).state)
  {
    var m := s.pending[0];
    var s1 := Rotate(s.(pending := s.pending[1..]), m);
    RotateKeepsSingleMedia(s.(pending := s.pending[1..]), m);
    match Sibling(s1.order, s1.data.Keys, s1.currentStory, DirOf(m.target))
    case TimelineElementMissing =>
    case Adjacent(n) =>
      var o := if n.Some? then CreateViewer(env, s1, n.value, m.target, false) else Done(s1);
      if n.Some? {
        CreateViewerKeepsSingleMedia(env, s1, n.value, m.target, false);
      }
      if o.Done? {
        FocusKeepsSingleMedia(env, o.state, m.targetStory, m.slider);
      }
  }

  lemma ShowKeepsSingleMedia(env: Env, s: State, sid: StoryId, hooks: Hooks)
    requires SingleMedia(s)
    ensures SingleMedia(ModalShow(env, s, sid, hooks).state)
  {
    var s0 := s.(calls := s.calls + [OnOpen(sid)]);
    var s1 := OpenSlider(s0);
    if hooks.open && sid in s1.data {
      var s2 := s1.(touch := Some(FreshTouch), currentStory := Some(sid));
      match Sibling(s2.order, s2.data.Keys, s2.currentStory, Backward)
      case TimelineElementMissing =>
      case Adjacent(prev) =>
        var o1 := if prev.Some? then CreateViewer(env, s2, prev.value, Previous, false) else Done(s2);
        if prev.Some? {
          CreateViewerKeepsSingleMedia(env, s2, prev.value, Previous, false);
        }
        if o1.Done? {
          var o2 := CreateViewer(env, o1.state, sid, Viewing, true);
          CreateViewerKeepsSingleMedia(env, o1.state, sid, Viewing, true);
          if o2.Done? {
            var t := o2.state;
            match Sibling(t.order, t.data.Keys, t.currentStory, Forward)
            case TimelineElementMissing =>
            case Adjacent(next) =>
              if next.Some? {
                CreateViewerKeepsSingleMedia(env, t, next.value, Next, false);
              }
          }
        }
    }
  }

  lemma MoveStoryKeepsSingleMedia(env: Env, s: State, forward: bool)
    requires SingleMedia(s)
    ensures SingleMedia(MoveStory(env, s, forward))
  {
  }

  lemma CloseKeepsSingleMedia(s: State, hooks: Hooks)
    requires SingleMedia(s)
    ensures SingleMedia(ModalClose(s, hooks))
  {
  }

  lemma NextKeepsSingleMedia(env: Env, s: State, hooks: Hooks)
    requires SingleMedia(s)
    ensures SingleMedia(ModalNext(env, s, hooks).state)
  {
    var s0 := s.(calls := s.calls + [OnEnd(s.currentStory)]);
    if hooks.end {
      var o := MarkSeen(env, s0);
      if o.Done? {
        var u := o.state;
        assert u.playing == s.playing && u.currentVideo == s.currentVideo;
        if Find(u.dom, WithRole(Next)).None? {
          assert AfterEnd(env, u, hooks) == ModalClose(u, hooks);
        } else {
          assert AfterEnd(env, u, hooks) == MoveStory(env, u, true);
        }
        assert ModalNext(env, s, hooks) == Done(AfterEnd(env, u, hooks));
      }
    }
  }

  lemma NavigateItemKeepsSingleMedia(env: Env, s: State, dir: Dir, withEvent: bool, hooks: Hooks)
    requires SingleMedia(s)
    ensures SingleMedia(NavigateItem(env, s, dir, withEvent, hooks).state)
  {
    var r := NavigateItem(env, s, dir, withEvent, hooks);
    if s.currentStory.None? || s.currentStory.value !in s.data {
      assert r == Threw(s);
    } else {
      var c := s.currentStory.value;
      var cur := s.data[c].currentItem;
      match Find(s.dom, OfStory(c))
      case None =>
        assert r == Done(s);
      case Some(k) =>
        var p := s.dom[k];
        var target := if dir == Backward then cur - 1 else cur + 1;
        var s0 := s.(calls := s.calls + [OnNavigateItem(c)]);
        if !(0 <= target < |p.items|) {
          if dir == Forward {
            NextKeepsSingleMedia(env, s, hooks);
            assert r == ModalNext(env, s, hooks);
          } else {
            assert r == Done(s);
          }
        } else if !hooks.navigate {
          assert r == Done(s0);
        } else if cur >= |p.items| {
          assert r == Threw(s0);
        } else {
          var p1 := p.(items := StepFlags(p.items, cur, target, dir));
          var s1 := Proceeded(s0, k, p1, c, target);
          assert SingleMedia(s1);
          PlayKeepsSingleMedia(s1, p1, target, withEvent);
          NavigateItemProceedUnfold(env, s, k, dir, withEvent, hooks, c, cur, target, p1);
        }
    }
  }

  lemma TouchStartKeepsSingleMedia(env: Env, s: State, onLink: bool, x: int, y: int, now: int)
    requires SingleMedia(s)
    ensures SingleMedia(TouchStart(env, s, onLink, x, y, now).state)
  {
  }

  lemma TouchMoveKeepsSingleMedia(env: Env, s: State, x: int, y: int)
    requires SingleMedia(s)
    ensures SingleMedia(TouchMove(env, s, x, y))
  {
  }

  lemma NextTimerKeepsSingleMedia(s: State)
    requires SingleMedia(s)
    ensures SingleMedia(NextTimerElapses(s))
  {
  }

  /** The video `playVideoItem` picks for the viewing panel's active item is the current
      one (or there is no current video, or nothing for `touchEnd` to replay). */
  predicate VideoInFocus(s: State)
  {
    s.currentVideo.None? ||
    match Find(s.dom, WithRole(Viewing))
    case None => true
    case Some(k) =>
      match FirstItem(s.dom[k].items, IsActive)
      case None => true
      case Some(a) =>
        s.dom[k].items[a].isVideo && s.dom[k].items[a].hasVideo && s.currentVideo == Some(VideoRef(s.dom[k].uid, a))
  }

  lemma ReleaseKeepsMedia(env: Env, s: State, t: Touch, now: int)
    ensures var r := Release(env, s, t, now);
            r.dom == s.dom && r.playing == s.playing && r.currentVideo == s.currentVideo
  {
  }

  lemma ResumeKeepsSingleMedia(s: State, p: Panel)
    requires SingleMedia(s)
    ensures SingleMedia(Resume(s, p))
    ensures (FirstItem(p.items, IsActive).None? ==> Resume(s, p).currentVideo == s.currentVideo)
    ensures FirstItem(p.items, IsActive).Some? ==>
              var a := FirstItem(p.items, IsActive).value;
              Resume(s, p).currentVideo ==
                (if p.items[a].isVideo && p.items[a].hasVideo then Some(VideoRef(p.uid, a)) else None)
  {
    var idx := match FirstItem(p.items, IsActive) case Some(a) => a as int case None => -1;
    PlayKeepsSingleMedia(s, p, idx, false);
    if 0 <= idx {
      PlayEffect(s, p, idx, false);
    }
  }

  /** `touchEnd` keeps the rule when the current video is the one the viewing panel
      replays; then the reference it may unmute is the current video again. */
  lemma TouchEndKeepsSingleMedia(env: Env, s: State, now: int, hooks: Hooks)
    requires SingleMedia(s) && VideoInFocus(s)
    ensures SingleMedia(TouchEnd(env, s, now, hooks).state)
  {
    if s.touch.Some? {
      var t := s.touch.value;
      if t.listening && !(t.offset.Some? && !t.offset.value.valid) {
        var vk := Find(s.dom, WithRole(Viewing));
        var s1 := Release(env, s, t, now).(touch := Some(Released(t)));
        ReleaseKeepsMedia(env, s, t, now);
        var video := s1.currentVideo;
        var s2 := if vk.Some? then Resume(s1, s.dom[vk.value]) else s1;
        if vk.Some? {
          ResumeKeepsSingleMedia(s1, s.dom[vk.value]);
        }
        if t.nextTimer {
          var s3 := s2.(touch := Some(Released(t).(nextTimer := false, tapTimers := Dec(t.tapTimers))));
          var vn := Find(s3.dom, WithRole(Viewing));
          if vn.Some? && video.Some? && s3.dom[vn.value].muted {
            assert s2.currentVideo == video;
            UnmuteCurrentKeepsSingleMedia(s3, video.value, Some(s3.dom[vn.value].uid));
          } else if t.offset.Some? {
            var o := t.offset.value;
            var dir := if TapForward(o.x, env.host.screenWidth, env.config.previousTap) then Forward else Backward;
            NavigateItemKeepsSingleMedia(env, s3, dir, true, hooks);
          }
        }
      }
    }
  }

  // ---------------------------------------------------------------------------
  // A run of the viewer in which `touchEnd` breaks the rule

  /** Taps may go back, no cube, no storage, not reactive; a 300 px wide slider. */
  const TraceEnv: Env := Env(Config(true, false, false, false), Host(300, 600, 300, 400, -300, 0, 300, true), "t")

  /** Every callback proceeds. */
  const TraceHooks: Hooks := Hooks(true, true, true, true)

  /** Story "a" holds one image, story "n" one video. */
  const TraceData: map<StoryId, Story> :=
    map["a" := Story(false, 0, [StoryItem(false, false, false)]), "n" := Story(false, 0, [StoryItem(true, true, false)])]

  const TraceOrder: seq<StoryId> := ["a", "n"]

  /** Panel `u` of story "a" in the viewing role, and of story "n" in the next role. */
  function PanelA(u: nat): Panel
  {
    Panel(u, "a", {Viewing}, [ItemView(false, false, false, true)], true, false, false)
  }

  function PanelN(u: nat): Panel
  {
    Panel(u, "n", {Next}, [ItemView(true, true, false, true)], true, true, false)
  }

  /** The timeout the first `moveStoryItem(true)` schedules, on the first slider. */
  const TraceMove: PendingMove := PendingMove(Next, Previous, 1, "n", Some(0), 1)

  /** `createStoryViewer` of story "a" as the viewing panel: its image plays, which
      leaves no current video. */
  lemma TraceViewA(s: State)
    requires s.data == TraceData && s.slider && s.dom == [] && s.currentVideo.None?
    ensures CreateViewer(TraceEnv, s, "a", Viewing, true) ==
            Done(s.(nextUid := s.nextUid + 1, dom := [PanelA(s.nextUid)]))
  {
    assert MarkSeenBefore(TraceData["a"].items, 0) == TraceData["a"].items;
    assert RenderPanel(s, "a", Viewing, true) == PanelA(s.nextUid);
    assert Rendered(s, "a") == s.(nextUid := s.nextUid + 1);
  }

  /** `createStoryViewer` of story "n" as the next panel. */
  lemma TraceNextN(s: State)
    requires s.data == TraceData && s.slider && |s.dom| == 1 && s.dom[0].story == "a"
    ensures CreateViewer(TraceEnv, s, "n", Next, false) ==
            Done(s.(nextUid := s.nextUid + 1, dom := s.dom + [PanelN(s.nextUid)]))
  {
    assert MarkSeenBefore(TraceData["n"].items, 0) == TraceData["n"].items;
    assert RenderPanel(s, "n", Next, false) == PanelN(s.nextUid);
    assert Rendered(s, "n") == s.(nextUid := s.nextUid + 1);
  }

  /** The panels `modal.show("a")` builds on a fresh slider. */
  lemma TraceShow(s: State)
    requires s.data == TraceData && s.order == TraceOrder && s.slider && s.dom == [] &&
             s.currentStory == Some("a") && s.currentVideo.None?
    ensures ShowViewers(TraceEnv, s, "a") ==
            Done(s.(nextUid := s.nextUid + 2, dom := [PanelA(s.nextUid), PanelN(s.nextUid + 1)],
                    calls := s.calls + [OnView("a")]))
  {
    assert Sibling(TraceOrder, TraceData.Keys, Some("a"), Backward) == Adjacent(None);
    assert Sibling(TraceOrder, TraceData.Keys, Some("a"), Forward) == Adjacent(Some("n"));
    TraceViewA(s);
    var s1 := s.(nextUid := s.nextUid + 1, dom := [PanelA(s.nextUid)]);
    TraceNextN(s1);
    assert ShowViewers(TraceEnv, s, "a") == ShowNext(TraceEnv, s1, "a");
  }

  /** The new slider `modal.show("a")` builds before its panels. */
  function TraceNewSlider(s: State): State
  {
    s.(slider := true, offset := 0, sliderGen := s.sliderGen + 1, touch := Some(FreshTouch),
       currentStory := Some("a"), calls := s.calls + [OnOpen("a")])
  }

  lemma TraceOpenSlider(s: State)
    requires s.data == TraceData && s.dom == [] && s.playing == {} && s.currentVideo.None?
    ensures ModalShow(TraceEnv, s, "a", TraceHooks) == ShowViewers(TraceEnv, TraceNewSlider(s), "a")
  {
    var s0 := s.(calls := s.calls + [OnOpen("a")]);
    assert (set v | v in s0.playing && Find(s0.dom, WithUid(v.uid)).None?) == {};
    assert ClearSlider(s0) == s0;
    assert OpenSlider(s0).(touch := Some(FreshTouch), currentStory := Some("a")) == TraceNewSlider(s);
  }

  /** The modal `modal.show("a")` leaves: the new slider holds the panels of "a" and
      "n", and `onOpen` and `onView` were called. */
  function TraceShown(s: State): State
  {
    s.(slider := true, offset := 0, sliderGen := s.sliderGen + 1, touch := Some(FreshTouch),
       currentStory := Some("a"), nextUid := s.nextUid + 2, dom := [PanelA(s.nextUid), PanelN(s.nextUid + 1)],
       calls := s.calls + [OnOpen("a")] + [OnView("a")])
  }

  /** The panels built on that slider. */
  lemma TraceShowNew(s: State)
    requires s.data == TraceData && s.order == TraceOrder && s.dom == [] && s.currentVideo.None?
    ensures ShowViewers(TraceEnv, TraceNewSlider(s), "a") == Done(TraceShown(s))
  {
    var x := TraceNewSlider(s);
    TraceShow(x);
  }

  /** `modal.show("a")` with nothing playing and no panels. */
  lemma TraceOpenA(s: State)
    requires s.data == TraceData && s.order == TraceOrder && s.dom == [] && s.playing == {} && s.currentVideo.None?
    ensures ModalShow(TraceEnv, s, "a", TraceHooks) == Done(TraceShown(s))
  {
    TraceOpenSlider(s);
    TraceShowNew(s);
  }

  /** The rotation of the stale timeout finds neither captured panel attached. */
  lemma TraceStaleRotate(s: State)
    requires s.dom == [PanelA(2), PanelN(3)]
    ensures Rotate(s, TraceMove) == s.(currentStory := Some("n"))
  {
    assert Find(s.dom, WithRole(Previous)) == None;
    assert Find(s.dom, WithUid(0)) == None;
    assert Find(s.dom, WithUid(1)) == None;
  }

  /** The focus of the stale timeout: the slider on screen is not the captured one, so
      it keeps its offset, and the video of the next panel plays. */
  lemma TraceStaleFocus(s: State)
    requires s.data == TraceData && s.dom == [PanelA(2), PanelN(3)] && s.sliderGen == 2 && s.currentVideo.None?
    ensures Focus(TraceEnv, s, "n", 1) ==
            Done(s.(currentVideo := Some(VideoRef(3, 0)), playing := s.playing + {VideoRef(3, 0)},
                    calls := s.calls + [OnView("n")]))
  {
    assert Find(s.dom, OfStory("n")) == Some(1);
    assert FirstItem(PanelN(3).items, IsActive) == Some(0);
    assert s.data["n" := s.data["n"].(currentItem := 0)] == s.data;
  }

  /** The stale timeout fires after the reopening: neither captured panel is attached,
      but story "n" becomes current and the video of the new next panel plays. */
  lemma TraceStaleTimeout(s: State)
    requires s.data == TraceData && s.order == TraceOrder && s.dom == [PanelA(2), PanelN(3)] &&
             s.pending == [TraceMove] && s.sliderGen == 2 && s.currentVideo.None?
    ensures Complete(TraceEnv, s) ==
            Done(s.(currentStory := Some("n"), pending := [], currentVideo := Some(VideoRef(3, 0)),
                    playing := s.playing + {VideoRef(3, 0)}, calls := s.calls + [OnView("n")]))
  {
    assert s.pending[0] == TraceMove && s.pending[1..] == [];
    var s1 := s.(currentStory := Some("n"), pending := []);
    TraceStaleRotate(s.(pending := []));
    assert DirOf(Next) == Forward;
    assert Sibling(s1.order, s1.data.Keys, s1.currentStory, Forward) == Adjacent(None);
    TraceStaleFocus(s1);
  }

  /** The run: open "a", slide on, close and reopen "a" before the slide's timeout
      fires, let it fire, and touch the screen. */
  function TraceTouched(): State
  {
    var s1 := ModalShow(TraceEnv, Init(TraceEnv, TraceData, TraceOrder, map[]), "a", TraceHooks).state;
    var s4 := ModalShow(TraceEnv, ModalClose(MoveStory(TraceEnv, s1, true), TraceHooks), "a", TraceHooks).state;
    if |s4.pending| == 0 then s4
    else TouchStart(TraceEnv, Complete(TraceEnv, s4).state, false, 300, 300, 1000).state
  }

  /** A touch in the middle of the screen pauses the viewing panel and the current
      video, and arms the 250 ms tap timer. */
  lemma TraceTouch(s: State)
    requires s.dom == [PanelA(2), PanelN(3)] && s.touch == Some(FreshTouch) && s.currentVideo == Some(VideoRef(3, 0))
    ensures TouchStart(TraceEnv, s, false, 300, 300, 1000) ==
            Done(s.(touch := Some(Touch(Some(Offset(300, 300, 1000, true)), Blank, None, 0, true, true, 1)),
                    dom := [PanelA(2).(paused := true), PanelN(3)], playing := s.playing - {VideoRef(3, 0)}))
  {
    assert Find(s.dom, WithRole(Viewing)) == Some(0);
  }

  /** The state when the screen is touched: story "n" is current and its video is the
      current one, but the viewing panel is still the one of "a". */
  function TraceAtTouch(): State
  {
    State(TraceData, TraceOrder, Some("n"), map[], map[], true, 0, 2, [PanelA(2).(paused := true), PanelN(3)], 4,
          Some(VideoRef(3, 0)), {}, [], Some(Touch(Some(Offset(300, 300, 1000, true)), Blank, None, 0, true, true, 1)),
          [OnOpen("a"), OnView("a"), OnClose(Some("a")), OnOpen("a"), OnView("a"), OnView("n")])
  }

  /** The modal after the first opening, the slide and the closing. */
  function TraceClosed(): State
  {
    State(TraceData, TraceOrder, Some("a"), map[], map[], false, -300, 1, [], 2, None, {}, [TraceMove], None,
          [OnOpen("a"), OnView("a"), OnClose(Some("a"))])
  }

  /** A new instance over the two stories, before anything is opened. */
  function TraceFresh(): State
  {
    State(TraceData, TraceOrder, None, map[], map[], false, 0, 0, [], 0, None, {}, [], None, [])
  }

  /** The modal after the first opening of "a". */
  function TraceOpened(): State
  {
    State(TraceData, TraceOrder, Some("a"), map[], map[], true, 0, 1, [PanelA(0), PanelN(1)], 2,
          None, {}, [], Some(FreshTouch), [OnOpen("a"), OnView("a")])
  }

  /** The modal once the slide towards "n" has started. */
  function TraceSlid(): State
  {
    TraceOpened().(offset := -300, pending := [TraceMove])
  }

  lemma TraceStart()
    ensures Init(TraceEnv, TraceData, TraceOrder, map[]) == TraceFresh()
  {
  }

  lemma TraceFirstOpen()
    ensures ModalShow(TraceEnv, TraceFresh(), "a", TraceHooks) == Done(TraceOpened())
  {
    TraceOpenA(TraceFresh());
  }

  lemma TraceSlide()
    ensures MoveStory(TraceEnv, TraceOpened(), true) == TraceSlid()
  {
    var s := TraceOpened();
    assert Find(s.dom, WithRole(Next)) == Some(1);
    assert Find(s.dom, WithRole(Viewing)) == Some(0);
  }

  lemma TraceFirstClose()
    ensures ModalClose(TraceSlid(), TraceHooks) == TraceClosed()
  {
  }

  /** Open "a", slide on, close before the slide's timeout fires. */
  lemma TraceFirstVisit()
    ensures var s1 := ModalShow(TraceEnv, Init(TraceEnv, TraceData, TraceOrder, map[]), "a", TraceHooks).state;
            ModalClose(MoveStory(TraceEnv, s1, true), TraceHooks) == TraceClosed()
  {
    TraceStart();
    TraceFirstOpen();
    TraceSlide();
    TraceFirstClose();
  }

  /** The modal after the reopening, with the first slide's timeout still pending. */
  function TraceReopened(): State
  {
    State(TraceData, TraceOrder, Some("a"), map[], map[], true, 0, 2, [PanelA(2), PanelN(3)], 4,
          None, {}, [TraceMove], Some(FreshTouch),
          [OnOpen("a"), OnView("a"), OnClose(Some("a")), OnOpen("a"), OnView("a")])
  }

  /** The modal once that timeout has fired. */
  function TraceTimedOut(): State
  {
    State(TraceData, TraceOrder, Some("n"), map[], map[], true, 0, 2, [PanelA(2), PanelN(3)], 4,
          Some(VideoRef(3, 0)), {VideoRef(3, 0)}, [], Some(FreshTouch),
          [OnOpen("a"), OnView("a"), OnClose(Some("a")), OnOpen("a"), OnView("a"), OnView("n")])
  }

  lemma TraceReopen()
    ensures ModalShow(TraceEnv, TraceClosed(), "a", TraceHooks) == Done(TraceReopened())
  {
    TraceOpenA(TraceClosed());
  }

  lemma TraceTimeout()
    ensures Complete(TraceEnv, TraceReopened()) == Done(TraceTimedOut())
  {
    var s := TraceReopened();
    TraceStaleTimeout(s);
    assert s.calls + [OnView("n")] == TraceTimedOut().calls;
    assert s.playing + {VideoRef(3, 0)} == TraceTimedOut().playing;
  }

  lemma TraceTouchDown()
    ensures TouchStart(TraceEnv, TraceTimedOut(), false, 300, 300, 1000) == Done(TraceAtTouch())
  {
    TraceTouch(TraceTimedOut());
  }

  /** Reopen "a", let the stale timeout fire, touch the screen. */
  lemma TraceSecondVisit()
    ensures var s4 := ModalShow(TraceEnv, TraceClosed(), "a", TraceHooks).state;
            |s4.pending| > 0 &&
            TouchStart(TraceEnv, Complete(TraceEnv, s4).state, false, 300, 300, 1000).state == TraceAtTouch()
  {
    TraceReopen();
    TraceTimeout();
    TraceTouchDown();
  }

  /** The state `TraceTouched` reaches. */
  lemma TraceReaches()
    ensures TraceTouched() == TraceAtTouch()
  {
    TraceFirstVisit();
    TraceSecondVisit();
  }

  /** The state at the touch keeps the invariant and the single-media rule, though
      the current video is not in the viewing panel. */
  lemma TraceAtTouchOk(s: State)
    requires s == TraceAtTouch()
    ensures Inv(s) && SingleMedia(s) && !VideoInFocus(s)
  {
    assert PanelMatchesData(s.dom[0], TraceData) && PanelMatchesData(s.dom[1], TraceData);
    assert PanelsOk(s.dom, s.data, s.nextUid);
    assert Find(s.dom, WithRole(Viewing)) == Some(0);
  }

  /** The release 100 ms after the touch. */
  lemma TraceRelease(s: State)
    requires s == TraceAtTouch()
    ensures var r := TouchEnd(TraceEnv, s, 1100, TraceHooks).state;
            VideoRef(3, 0) in r.playing && r.currentVideo.None?
  {
    var t := s.touch.value;
    assert Find(s.dom, WithRole(Viewing)) == Some(0);
    assert FirstItem(s.dom[0].items, IsActive) == Some(0);
    var s1 := Release(TraceEnv, s, t, 1100).(touch := Some(Released(t)));
    assert s1.dom == s.dom && s1.currentVideo == Some(VideoRef(3, 0));
    var s2 := Resume(s1, s.dom[0]);
    assert s2.currentVideo.None?;
    assert Find(s2.dom, WithRole(Viewing)) == Some(0);
  }

  /** In that run the current video is the one of the next panel while the viewing
      panel shows an image. Releasing within 250 ms replays the image, which clears
      `currentVideoElement`, and then unmutes the video captured before the replay,
      which plays on: a media element plays that is not the current one. */
  lemma TouchEndCanBreakSingleMedia()
    ensures var s := TraceTouched();
            Inv(s) && SingleMedia(s) && !VideoInFocus(s) &&
            var r := TouchEnd(TraceEnv, s, 1100, TraceHooks).state;
            VideoRef(3, 0) in r.playing && r.currentVideo.None? && !SingleMedia(r)
  {
    TraceReaches();
    TraceAtTouchOk(TraceTouched());
    TraceRelease(TraceTouched());
  }
}
