// Every handler keeps `Inv`: the timeline lists distinct stories that have data, a
// closed modal has no panels and no gesture listeners, every panel agrees with the
// story data it shows (one active item, at `currentItem`, with every item before it
// seen), no two panels share an element or a story, and a pending tap timer is
// counted.
module InvariantLemmas {
  import opened Common
  import opened Timeline
  import opened Panels
  import opened Navigation
  import opened Gesture
  import opened MediaLemmas

  // ---------------------------------------------------------------------------
  // Panels

  lemma SameContentKeepsPanelsOk(a: seq<Panel>, b: seq<Panel>, data: map<StoryId, Story>, n: nat)
    requires SameContent(a, b) && PanelsOk(a, data, n)
    ensures PanelsOk(b, data, n)
  {
    forall i | 0 <= i < |b|
      ensures b[i].uid < n && PanelMatchesData(b[i], data)
    {
      assert a[i].uid == b[i].uid && a[i].story == b[i].story && a[i].items == b[i].items;
    }
  }

  lemma RemoveAtKeepsPanelsOk(a: seq<Panel>, k: nat, data: map<StoryId, Story>, n: nat)
    requires k < |a| && PanelsOk(a, data, n)
    ensures PanelsOk(RemoveAt(a, k), data, n)
  {
    var r := RemoveAt(a, k);
    forall i, j | 0 <= i < j < |r|
      ensures r[i].uid != r[j].uid && r[i].story != r[j].story
    {
      var i', j' := if i < k then i else i + 1, if j < k then j else j + 1;
      assert r[i] == a[i'] && r[j] == a[j'];
    }
  }

  /** Adding a freshly rendered panel of a story not on screen, at either end. */
  lemma AddKeepsPanelsOk(dom: seq<Panel>, p: Panel, data: map<StoryId, Story>, n: nat)
    requires PanelsOk(dom, data, n) && PanelMatchesData(p, data) && p.uid < n
    requires forall i :: 0 <= i < |dom| ==> dom[i].uid != p.uid && dom[i].story != p.story
    ensures PanelsOk([p] + dom, data, n) && PanelsOk(dom + [p], data, n)
  {
    var front, back := [p] + dom, dom + [p];
    forall i, j | 0 <= i < j < |front|
      ensures front[i].uid != front[j].uid && front[i].story != front[j].story
    {
      assert front[j] == dom[j - 1];
      if i > 0 { assert front[i] == dom[i - 1]; }
    }
    forall i, j | 0 <= i < j < |back|
      ensures back[i].uid != back[j].uid && back[i].story != back[j].story
    {
      assert back[i] == dom[i];
      if j < |dom| { assert back[j] == dom[j]; }
    }
  }

  /** Panels agree with new data that keeps every shown story's `currentItem` and its
      items up to their `seen` flags. */
  lemma SameShapeKeepsPanelsOk(dom: seq<Panel>, d1: map<StoryId, Story>, d2: map<StoryId, Story>, n: nat)
    requires PanelsOk(dom, d1, n)
    requires forall i :: 0 <= i < |dom| ==>
               dom[i].story in d2 && SameButSeen(d1[dom[i].story].items, d2[dom[i].story].items) &&
               d2[dom[i].story].currentItem == d1[dom[i].story].currentItem
    ensures PanelsOk(dom, d2, n)
  {
    forall i | 0 <= i < |dom|
      ensures PanelMatchesData(dom[i], d2)
    {
      assert PanelMatchesData(dom[i], d1);
    }
  }

  lemma RetireUidSameContent(dom: seq<Panel>, u: Option<nat>, useless: Role)
    ensures SameContent(dom, RetireUid(dom, u, useless))
  {
  }

  lemma PromoteUidSameContent(dom: seq<Panel>, u: nat, target: Role)
    ensures SameContent(dom, PromoteUid(dom, u, target))
  {
  }

  // ---------------------------------------------------------------------------
  // Media and the slider offset

  lemma PlayKeepsInv(s: State, p: Panel, index: int, unmute: bool)
    requires Inv(s)
    ensures Inv(Play(s, p, index, unmute))
  {
    if 0 <= index < |p.items| {
      PlayEffect(s, p, index, unmute);
      SameContentKeepsPanelsOk(s.dom, Play(s, p, index, unmute).dom, s.data, s.nextUid);
    }
  }

  lemma UnmuteKeepsInv(s: State, v: VideoRef, viewer: Option<nat>)
    requires Inv(s)
    ensures Inv(Unmute(s, v, viewer))
  {
    UnmuteEffect(s, v, viewer);
    SameContentKeepsPanelsOk(s.dom, Unmute(s, v, viewer).dom, s.data, s.nextUid);
  }

  lemma TranslateKeepsInv(env: Env, s: State, to: int)
    requires Inv(s)
    ensures Inv(Translate(env, s, to))
  {
  }

  // ---------------------------------------------------------------------------
  // Construction and stories

  /** A new instance over a timeline of distinct stories that all have data. */
  lemma InitEstablishesInv(env: Env, data: map<StoryId, Story>, order: seq<StoryId>, store: Storage.Store)
    requires Distinct(order) && forall sid :: sid in order ==> sid in data
    ensures Inv(Init(env, data, order, store))
  {
  }

  lemma CreateViewerKeepsInv(env: Env, s: State, sid: StoryId, role: Role, forcePlay: bool)
    requires Inv(s) && sid in s.data
    ensures Inv(CreateViewer(env, s, sid, role, forcePlay).state)
  {
    if Find(s.dom, OfStory(sid)).None? {
      var p := RenderPanel(s, sid, role, forcePlay);
      var s1 := Rendered(s, sid);
      assert Inv(s1) by {
        SameShapeKeepsPanelsOk(s.dom, s.data, s1.data, s.nextUid);
      }
      assert PanelMatchesData(p, s1.data) by {
        RenderedPanelMatches(s.data, sid, s.nextUid, role, forcePlay);
      }
      var s2 := Staged(s, sid, role, forcePlay);
      assert Inv(s2) && s2.dom == s.dom && s2.data == s1.data && s2.nextUid == s1.nextUid by {
        if role == Viewing {
          PlayKeepsInv(s1, p, s.data[sid].currentItem, false);
          if s.data[sid].currentItem < |p.items| {
            PlayEffect(s1, p, s.data[sid].currentItem, false);
          }
        }
      }
      assert forall i :: 0 <= i < |s2.dom| ==> s2.dom[i].uid != p.uid && s2.dom[i].story != p.story;
      AttachKeepsInv(s2, p, role);
    }
  }

  lemma AttachKeepsInv(s: State, p: Panel, role: Role)
    requires Inv(s) && PanelMatchesData(p, s.data) && p.uid < s.nextUid
    requires forall i :: 0 <= i < |s.dom| ==> s.dom[i].uid != p.uid && s.dom[i].story != p.story
    ensures Inv(Attach(s, p, role).state)
  {
    AddKeepsPanelsOk(s.dom, p, s.data, s.nextUid);
  }

  /** The panel `createStoryViewer` renders agrees with the data its loop leaves. */
  lemma RenderedPanelMatches(data: map<StoryId, Story>, sid: StoryId, uid: nat, role: Role, forcePlay: bool)
    requires sid in data
    ensures var st := data[sid];
            var marked := MarkSeenBefore(st.items, st.currentItem);
            PanelMatchesData(Panel(uid, sid, {role}, Views(marked, st.currentItem), true, !forcePlay, false),
                             data[sid := st.(items := marked)])
  {
    var st := data[sid];
    ViewsOfMarked(st.items, st.currentItem);
    MarkSeenBeforeMeaning(st.items, st.currentItem);
  }

  lemma MoveStoryKeepsInv(env: Env, s: State, forward: bool)
    requires Inv(s)
    ensures Inv(MoveStory(env, s, forward))
  {
  }

  lemma RotateKeepsInv(s: State, m: PendingMove)
    requires Inv(s)
    ensures Inv(Rotate(s, m))
  {
    var s1 := s.(currentStory := Some(m.targetStory));
    var s2 := DropRole(s1, m.useless);
    if Find(s1.dom, WithRole(m.useless)).Some? {
      RemoveAtKeepsPanelsOk(s1.dom, Find(s1.dom, WithRole(m.useless)).value, s.data, s.nextUid);
    }
    assert Inv(s2);
    var d3 := RetireUid(s2.dom, m.viewingUid, m.useless);
    RetireUidSameContent(s2.dom, m.viewingUid, m.useless);
    PromoteUidSameContent(d3, m.targetUid, m.target);
    SameContentKeepsPanelsOk(s2.dom, d3, s.data, s.nextUid);
    SameContentKeepsPanelsOk(d3, PromoteUid(d3, m.targetUid, m.target), s.data, s.nextUid);
  }

  lemma FocusKeepsInv(env: Env, s: State, sid: StoryId, slider: nat)
    requires Inv(s)
    ensures Inv(Focus(env, s, sid, slider).state)
  {
    match Find(s.dom, OfStory(sid))
    case None =>
    case Some(k) =>
      var p := s.dom[k];
      match FirstItem(p.items, IsActive)
      case None =>
      case Some(a) =>
        if sid in s.data {
          assert PanelMatchesData(p, s.data);
          assert a == s.data[sid].currentItem;
          assert s.data[sid := s.data[sid].(currentItem := a)] == s.data;
          PlayKeepsInv(ResetSlider(env, s, slider), p, a, false);
        }
  }

  lemma CompleteKeepsInv(env: Env, s: State)
    requires Inv(s) && |s.pending| > 0
    ensures Inv(Complete(env, s).state)
  {
    var m := s.pending[0];
    var s1 := Rotate(s.(pending := s.pending[1..]), m);
    RotateKeepsInv(s.(pending := s.pending[1..]), m);
    match Sibling(s1.order, s1.data.Keys, s1.currentStory, DirOf(m.target))
    case TimelineElementMissing =>
    case Adjacent(n) =>
      if n.Some? {
        CreateViewerKeepsInv(env, s1, n.value, m.target, false);
      }
      var o := if n.Some? then CreateViewer(env, s1, n.value, m.target, false) else Done(s1);
      if o.Done? {
        FocusKeepsInv(env, o.state, m.targetStory, m.slider);
      }
  }

  lemma ShowNextKeepsInv(env: Env, s: State, sid: StoryId)
    requires Inv(s)
    ensures Inv(ShowNext(env, s, sid).state)
  {
    match Sibling(s.order, s.data.Keys, s.currentStory, Forward)
    case TimelineElementMissing =>
    case Adjacent(next) =>
      if next.Some? {
        CreateViewerKeepsInv(env, s, next.value, Next, false);
      }
  }

  lemma ShowViewersKeepsInv(env: Env, s: State, sid: StoryId)
    requires Inv(s) && sid in s.data
    ensures Inv(ShowViewers(env, s, sid).state)
  {
    match Sibling(s.order, s.data.Keys, s.currentStory, Backward)
    case TimelineElementMissing =>
    case Adjacent(prev) =>
      if prev.Some? {
        CreateViewerKeepsInv(env, s, prev.value, Previous, false);
      }
      var o1 := if prev.Some? then CreateViewer(env, s, prev.value, Previous, false) else Done(s);
      if o1.Done? {
        CreateViewerKeepsInv(env, o1.state, sid, Viewing, true);
        var o2 := CreateViewer(env, o1.state, sid, Viewing, true);
        if o2.Done? {
          ShowNextKeepsInv(env, o2.state, sid);
        }
      }
  }

  lemma ModalShowKeepsInv(env: Env, s: State, sid: StoryId, hooks: Hooks)
    requires Inv(s)
    ensures Inv(ModalShow(env, s, sid, hooks).state)
  {
    if hooks.open {
      var s0 := s.(calls := s.calls + [OnOpen(sid)]);
      var s1 := OpenSlider(s0);
      assert Inv(s1);
      if sid in s1.data {
        ShowViewersKeepsInv(env, s1.(touch := Some(FreshTouch), currentStory := Some(sid)), sid);
      }
    }
  }

  lemma MarkSeenKeepsInv(env: Env, s: State)
    requires Inv(s)
    ensures Inv(MarkSeen(env, s).state)
  {
    if s.currentStory.Some? && s.currentStory.value in s.order && s.currentStory.value in s.data {
      var c := s.currentStory.value;
      var data := s.data[c := s.data[c].(seen := true)];
      var d2 := MarkSeen(env, s).state.data;
      forall sid | sid in s.data
        ensures sid in d2 && SameButSeen(s.data[sid].items, d2[sid].items) && d2[sid].currentItem == s.data[sid].currentItem
      {
        ReparsedMeaning(s.data[sid].items, 0);
      }
      SameShapeKeepsPanelsOk(s.dom, s.data, d2, s.nextUid);
      if !env.config.reactive {
        var order := SeenToEnd(s.order, SeenStories(data));
        SeenToEndDistinct(s.order, SeenStories(data));
        SeenToEndPermutes(s.order, SeenStories(data));
        forall sid | sid in order
          ensures sid in data
        {
          assert sid in multiset(order);
        }
      }
    }
  }

  lemma ModalCloseKeepsInv(s: State, hooks: Hooks)
    requires Inv(s)
    ensures Inv(ModalClose(s, hooks))
  {
  }

  lemma ModalNextKeepsInv(env: Env, s: State, hooks: Hooks)
    requires Inv(s)
    ensures Inv(ModalNext(env, s, hooks).state)
  {
    var s0 := s.(calls := s.calls + [OnEnd(s.currentStory)]);
    if hooks.end {
      MarkSeenKeepsInv(env, s0);
      var o := MarkSeen(env, s0);
      if o.Done? {
        ModalCloseKeepsInv(o.state, hooks);
        MoveStoryKeepsInv(env, o.state, true);
      }
    }
  }

  // ---------------------------------------------------------------------------
  // Items

  /** The panel of the current story after a proceeded step still agrees with the data. */
  lemma StepKeepsPanelMatch(p: Panel, data: map<StoryId, Story>, cur: nat, dir: Dir)
    requires PanelMatchesData(p, data) && data[p.story].currentItem == cur && cur < |p.items|
    requires var t := if dir == Backward then cur - 1 else cur + 1; 0 <= t < |p.items|
    ensures var t := if dir == Backward then cur - 1 else cur + 1;
            PanelMatchesData(p.(items := StepFlags(p.items, cur, t, dir)),
                             data[p.story := data[p.story].(currentItem := t)])
  {
    var t := if dir == Backward then cur - 1 else cur + 1;
    StepFlagsEffect(p.items, cur, dir);
    StepFlagsKeepsOneActive(p.items, cur, t, dir);
    StepFlagsKeepsSeenPrefix(p.items, cur, dir);
  }

  lemma NavigateItemKeepsInv(env: Env, s: State, dir: Dir, withEvent: bool, hooks: Hooks)
    requires Inv(s)
    ensures Inv(NavigateItem(env, s, dir, withEvent, hooks).state)
  {
    var r := NavigateItem(env, s, dir, withEvent, hooks);
    if s.currentStory.None? || s.currentStory.value !in s.data {
      assert r == Threw(s);
    } else {
      var c := s.currentStory.value;
      var cur := s.data[c].currentItem;
      match Find(s.dom, OfStory(c))
      case None =>
        assert r == Done(s);
      case Some(k) =>
        var p := s.dom[k];
        var target := if dir == Backward then cur - 1 else cur + 1;
        var s0 := s.(calls := s.calls + [OnNavigateItem(c)]);
        if !(0 <= target < |p.items|) {
          if dir == Forward {
            ModalNextKeepsInv(env, s, hooks);
            assert r == ModalNext(env, s, hooks);
          } else {
            assert r == Done(s);
          }
        } else if !hooks.navigate {
          assert r == Done(s0);
        } else if cur >= |p.items| {
          assert r == Threw(s0);
        } else {
          NavigateProceedKeepsInv(env, s, k, dir, withEvent, hooks);
        }
    }
  }

  /** The branch of `navigateItem` that moves to another item of the story. */
  lemma NavigateProceedKeepsInv(env: Env, s: State, k: nat, dir: Dir, withEvent: bool, hooks: Hooks)
    requires Inv(s) && s.currentStory.Some? && s.currentStory.value in s.data
    requires Find(s.dom, OfStory(s.currentStory.value)) == Some(k) && hooks.navigate
    requires var cur := s.data[s.currentStory.value].currentItem;
             var target := if dir == Backward then cur - 1 else cur + 1;
             cur < |s.dom[k].items| && 0 <= target < |s.dom[k].items|
    ensures Inv(NavigateItem(env, s, dir, withEvent, hooks).state)
  {
    var c := s.currentStory.value;
    var cur := s.data[c].currentItem;
    var p := s.dom[k];
    var target := if dir == Backward then cur - 1 else cur + 1;
    var s0 := s.(calls := s.calls + [OnNavigateItem(c)]);
    var p1 := p.(items := StepFlags(p.items, cur, target, dir));
    var s1 := Proceeded(s0, k, p1, c, target);
    ProceedKeepsInv(s0, k, p, c, cur, target, dir);
    PlayKeepsInv(s1, p1, target, withEvent);
    NavigateItemProceedUnfold(env, s, k, dir, withEvent, hooks, c, cur, target, p1);
  }

  /** The step a permitted `navigateItem` makes on panel `k` and on the data keeps `Inv`. */
  lemma ProceedKeepsInv(s: State, k: nat, p: Panel, c: StoryId, cur: nat, target: int, dir: Dir)
    requires Inv(s) && k < |s.dom| && p == s.dom[k] && p.story == c && c in s.data
    requires cur == s.data[c].currentItem && target == (if dir == Backward then cur - 1 else cur + 1)
    requires cur < |p.items| && 0 <= target < |p.items|
    ensures Inv(Proceeded(s, k, p.(items := StepFlags(p.items, cur, target, dir)), c, target))
  {
    var p1 := p.(items := StepFlags(p.items, cur, target, dir));
    var data := s.data[c := s.data[c].(currentItem := target)];
    var s1 := Proceeded(s, k, p1, c, target);
    StepKeepsPanelMatch(p, s.data, cur, dir);
    forall i | 0 <= i < |s1.dom|
      ensures s1.dom[i].uid < s1.nextUid && PanelMatchesData(s1.dom[i], data)
    {
      if i != k {
        assert s1.dom[i] == s.dom[i] && s.dom[i].story != c;
        assert PanelMatchesData(s.dom[i], s.data);
      }
    }
    forall i, j | 0 <= i < j < |s1.dom|
      ensures s1.dom[i].uid != s1.dom[j].uid && s1.dom[i].story != s1.dom[j].story
    {
      assert s1.dom[i].uid == s.dom[i].uid && s1.dom[i].story == s.dom[i].story;
      assert s1.dom[j].uid == s.dom[j].uid && s1.dom[j].story == s.dom[j].story;
    }
  }

  // ---------------------------------------------------------------------------
  // Gestures

  lemma TouchStartKeepsInv(env: Env, s: State, onLink: bool, x: int, y: int, now: int)
    requires Inv(s)
    ensures Inv(TouchStart(env, s, onLink, x, y, now).state)
  {
    var r := TouchStart(env, s, onLink, x, y, now).state;
    var vk := Find(s.dom, WithRole(Viewing));
    if s.touch.Some? && !onLink && |s.dom| > 0 && vk.Some? {
      var dom1 := s.dom[vk.value := s.dom[vk.value].(paused := true)];
      assert SameContent(s.dom, dom1);
      SameContentKeepsPanelsOk(s.dom, dom1, s.data, s.nextUid);
    }
  }

  lemma TouchMoveKeepsInv(env: Env, s: State, x: int, y: int)
    requires Inv(s)
    ensures Inv(TouchMove(env, s, x, y))
  {
  }

  lemma ResumeKeepsInv(s: State, p: Panel)
    requires Inv(s)
    ensures Inv(Resume(s, p)) && Resume(s, p).touch == s.touch
  {
    var idx := match FirstItem(p.items, IsActive) case Some(a) => a as int case None => -1;
    PlayKeepsInv(s, p, idx, false);
    var s1 := Play(s, p, idx, false);
    if 0 <= idx < |p.items| {
      PlayEffect(s, p, idx, false);
    }
    assert s1.touch == s.touch && s1.slider == s.slider;
    match Find(s1.dom, WithUid(p.uid))
    case None =>
      assert Resume(s, p) == s1;
    case Some(j) =>
      var dom2 := s1.dom[j := s1.dom[j].(paused := false)];
      assert SameContent(s1.dom, dom2);
      SameContentKeepsPanelsOk(s1.dom, dom2, s1.data, s1.nextUid);
      assert Resume(s, p) == s1.(dom := dom2);
  }

  lemma SettleKeepsInv(env: Env, s: State, t: Touch, now: int)
    requires Inv(s) && s.touch == Some(t)
    ensures Inv(Settle(env, s, t, now)) && Settle(env, s, t, now).touch == Some(Released(t))
  {
    var s1 := Release(env, s, t, now).(touch := Some(Released(t)));
    assert Inv(s1) by {
      ReleaseKeepsInv(env, s, t, now);
    }
    var vk := Find(s.dom, WithRole(Viewing));
    if vk.Some? {
      ResumeKeepsInv(s1, s.dom[vk.value]);
    }
  }

  lemma ReleaseKeepsInv(env: Env, s: State, t: Touch, now: int)
    requires Inv(s)
    ensures Inv(Release(env, s, t, now)) && Release(env, s, t, now).touch == s.touch
  {
    if !t.delta.Unset? && t.scrolling != Some(true) {
      MoveStoryKeepsInv(env, s, DragForward(t.delta));
      TranslateKeepsInv(env, s, t.position);
    }
  }

  /** Replacing the closure of a live gesture keeps `Inv` when its timer count covers a
      pending tap. */
  lemma RetouchKeepsInv(s: State, t: Touch)
    requires Inv(s) && s.touch.Some? && (t.nextTimer ==> t.tapTimers > 0)
    ensures Inv(s.(touch := Some(t)))
  {
  }

  lemma TouchEndKeepsInv(env: Env, s: State, now: int, hooks: Hooks)
    requires Inv(s)
    ensures Inv(TouchEnd(env, s, now, hooks).state)
  {
    match s.touch
    case None =>
    case Some(t) =>
      if t.listening && !(t.offset.Some? && !t.offset.value.valid) {
        SettleKeepsInv(env, s, t, now);
        var s2 := Settle(env, s, t, now);
        if !t.nextTimer {
          assert TouchEnd(env, s, now, hooks) == Done(s2);
        } else {
          var s3 := s2.(touch := Some(Released(t).(nextTimer := false, tapTimers := Dec(t.tapTimers))));
          var video := Release(env, s, t, now).currentVideo;
          RetouchKeepsInv(s2, Released(t).(nextTimer := false, tapTimers := Dec(t.tapTimers)));
          TapBranchKeepsInv(env, s3, video, t.offset, hooks);
          assert TouchEnd(env, s, now, hooks) == TapBranch(env, s3, video, t.offset, hooks);
        }
      }
  }

  /** The tap branch of `touchEnd`, unmuting or navigating, keeps `Inv`. */
  lemma TapBranchKeepsInv(env: Env, s3: State, video: Option<VideoRef>, last: Option<Offset>, hooks: Hooks)
    requires Inv(s3)
    ensures Inv(TapBranch(env, s3, video, last, hooks).state)
  {
    var vn := Find(s3.dom, WithRole(Viewing));
    if vn.Some? && video.Some? && s3.dom[vn.value].muted {
      UnmuteKeepsInv(s3, video.value, Some(s3.dom[vn.value].uid));
    } else if last.Some? {
      var o := last.value;
      var dir := if TapForward(o.x, env.host.screenWidth, env.config.previousTap) then Forward else Backward;
      NavigateItemKeepsInv(env, s3, dir, true, hooks);
    }
  }

  lemma NextTimerKeepsInv(s: State)
    requires Inv(s)
    ensures Inv(NextTimerElapses(s))
  {
  }
}
