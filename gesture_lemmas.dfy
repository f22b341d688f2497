// The gesture recognizer of `createStoryTouchEvents`: reserved bands, the sticky
// scroll classification, the release decision and the tap.
module GestureLemmas {
  import opened Common
  import opened Gesture
  import opened Panels
  import opened Navigation
  import opened MediaLemmas
  import opened StoryLemmas

  // ---------------------------------------------------------------------------
  // touchStart

  /** Nothing happens on a link, or before the slider has gesture listeners; with a
      slider but no panel the `offsetWidth` read throws. */
  lemma TouchStartIgnored(env: Env, s: State, onLink: bool, x: int, y: int, now: int)
    ensures s.touch.None? || onLink ==> TouchStart(env, s, onLink, x, y, now) == Done(s)
    ensures s.touch.Some? && !onLink && |s.dom| == 0 ==> TouchStart(env, s, onLink, x, y, now) == Threw(s)
  {
  }

  /** A touch in the top or bottom band only records an invalid offset: the following
      moves and the release do nothing at all. */
  lemma TouchStartInBand(env: Env, s: State, x: int, y: int, now: int, x2: int, y2: int, later: int, hooks: Hooks)
    requires s.touch.Some? && |s.dom| > 0 && InReservedBand(y, env.host.slideHeight)
    ensures var r := TouchStart(env, s, false, x, y, now);
            var t := s.touch.value;
            r.Done? && r.state.touch.Some? && r.state.touch.value.offset == Some(Offset(x, y, now, false)) &&
            r.state.touch.value == t.(offset := r.state.touch.value.offset, position := r.state.touch.value.position) &&
            r.state == s.(touch := r.state.touch) &&
            TouchMove(env, r.state, x2, y2) == r.state &&
            TouchEnd(env, r.state, later, hooks) == Done(r.state)
  {
  }

  /** A touch outside the bands starts a gesture: a valid offset, no classification
      yet, an empty delta, the listeners on, a fresh 250 ms tap timer, the viewing panel
      paused and the current video paused. */
  lemma TouchStartAccepted(env: Env, s: State, x: int, y: int, now: int)
    requires s.touch.Some? && |s.dom| > 0 && !InReservedBand(y, env.host.slideHeight)
    ensures var r := TouchStart(env, s, false, x, y, now);
            var t := s.touch.value;
            var vk := Find(s.dom, WithRole(Viewing));
            r.Done? && r.state.touch.Some? &&
            r.state.touch.value.offset == Some(Offset(x, y, now, true)) &&
            r.state.touch.value.scrolling.None? && r.state.touch.value.delta == Blank &&
            r.state.touch.value.listening && r.state.touch.value.nextTimer &&
            r.state.touch.value.tapTimers == t.tapTimers + 1 &&
            r.state.touch.value.position == (if vk.Some? then env.host.viewingLeft else 0) &&
            r.state.playing == s.playing - AsSet(s.currentVideo) &&
            |r.state.dom| == |s.dom| &&
            (vk.Some? ==> r.state.dom[vk.value] == s.dom[vk.value].(paused := true)) &&
            (forall i :: 0 <= i < |s.dom| && vk != Some(i) ==> r.state.dom[i] == s.dom[i]) &&
            r.state == s.(touch := r.state.touch, dom := r.state.dom, playing := r.state.playing)
  {
  }

  // ---------------------------------------------------------------------------
  // touchMove

  /** A sequence of pointer positions. */
  datatype Point = Point(x: int, y: int)

  /** `touchMove` at each point in turn. */
  function Moves(env: Env, s: State, pts: seq<Point>): State
    decreases |pts|
  {
    if |pts| == 0 then s else Moves(env, TouchMove(env, s, pts[0].x, pts[0].y), pts[1..])
  }

  /** One move of a started gesture records the delta from the start, classifies the
      gesture when it was not classified yet and keeps the classification otherwise;
      the slider follows the pointer only when not scrolling. */
  lemma TouchMoveClassifies(env: Env, s: State, x: int, y: int)
    requires s.touch.Some? && s.touch.value.listening && s.touch.value.offset.Some? && s.touch.value.offset.value.valid
    ensures var t := s.touch.value;
            var dx, dy := x - t.offset.value.x, y - t.offset.value.y;
            var r := TouchMove(env, s, x, y);
            var scrolling := if t.scrolling.None? then IsScroll(dx, dy) else t.scrolling.value;
            r.touch == Some(t.(delta := Moved(dx, dy), scrolling := Some(scrolling))) &&
            (scrolling ==> r.offset == s.offset) &&
            (!scrolling ==> r.offset == Translate(env, s, t.position + dx).offset) &&
            r == s.(touch := r.touch, offset := r.offset)
  {
  }

  /** Without a started gesture a move does nothing. */
  lemma TouchMoveIgnored(env: Env, s: State, x: int, y: int)
    requires s.touch.None? || !s.touch.value.listening || s.touch.value.offset.None? || !s.touch.value.offset.value.valid
    ensures TouchMove(env, s, x, y) == s
  {
  }

  /** Once a move has classified the gesture, no later move changes the
      classification, and a gesture classified as scrolling never moves the slider. */
  lemma {:induction false} MovesKeepClassification(env: Env, s: State, pts: seq<Point>)
    requires s.touch.Some? && s.touch.value.scrolling.Some?
    ensures var r := Moves(env, s, pts);
            r.touch.Some? && r.touch.value.scrolling == s.touch.value.scrolling &&
            r.touch.value.listening == s.touch.value.listening &&
            r.touch.value.offset == s.touch.value.offset && r.touch.value.position == s.touch.value.position &&
            (s.touch.value.scrolling == Some(true) ==> r.offset == s.offset)
    decreases |pts|
  {
    if |pts| > 0 {
      var s1 := TouchMove(env, s, pts[0].x, pts[0].y);
      assert s1.touch.Some? && s1.touch.value.scrolling == s.touch.value.scrolling;
      assert s.touch.value.scrolling == Some(true) ==> s1.offset == s.offset;
      MovesKeepClassification(env, s1, pts[1..]);
    }
  }

  /** The classification is the one the first move of the gesture made. */
  lemma FirstMoveDecides(env: Env, s: State, first: Point, rest: seq<Point>)
    requires s.touch.Some? && s.touch.value.listening && s.touch.value.offset.Some? && s.touch.value.offset.value.valid
    requires s.touch.value.scrolling.None?
    ensures var o := s.touch.value.offset.value;
            var r := Moves(env, s, [first] + rest);
            r.touch.Some? && r.touch.value.scrolling == Some(IsScroll(first.x - o.x, first.y - o.y))
  {
    var s1 := TouchMove(env, s, first.x, first.y);
    TouchMoveClassifies(env, s, first.x, first.y);
    assert ([first] + rest)[1..] == rest;
    MovesKeepClassification(env, s1, rest);
  }

  // ---------------------------------------------------------------------------
  // touchEnd

  /** The release decision: a gesture that is not scrolling, passes the commit
      predicate and has a neighbour panel in the drag direction schedules the move
      towards it; any other horizontal gesture snaps the slider back to where it
      started; a scrolling gesture changes nothing. The panels and data never change. */
  lemma ReleaseDecision(env: Env, s: State, t: Touch, now: int)
    requires !t.delta.Unset?
    ensures var r := Release(env, s, t, now);
            var elapsed := if t.offset.Some? then Some(now - t.offset.value.time) else None;
            var target := if DragForward(t.delta) then Next else Previous;
            var commit := t.scrolling != Some(true) && IsCommit(elapsed, t.delta, env.host.slideWidth) &&
                          Find(s.dom, WithRole(target)).Some?;
            r.dom == s.dom && r.data == s.data && r.currentVideo == s.currentVideo &&
            r.currentStory == s.currentStory && r.calls == s.calls &&
            (commit ==> |r.pending| == |s.pending| + 1 && r.pending[..|s.pending|] == s.pending &&
                        r.pending[|s.pending|].target == target) &&
            (!commit ==> r.pending == s.pending) &&
            (!commit && t.scrolling != Some(true) ==> r == Translate(env, s, t.position)) &&
            (t.scrolling == Some(true) ==> r == s)
  {
    var target := if DragForward(t.delta) then Next else Previous;
    if Find(s.dom, WithRole(target)).Some? {
      MoveStorySchedules(env, s, DragForward(t.delta));
    }
  }

  /** A release while no gesture is listening, or after a touch in a reserved band,
      changes nothing. */
  lemma TouchEndIgnored(env: Env, s: State, now: int, hooks: Hooks)
    requires s.touch.None? || !s.touch.value.listening ||
             (s.touch.value.offset.Some? && !s.touch.value.offset.value.valid)
    ensures TouchEnd(env, s, now, hooks) == Done(s)
  {
  }

  /** Everything up to the tap test only releases the gesture and unpauses: the data,
      the current story, the callbacks and every panel's items and roles are kept. */
  lemma SettleKeepsContent(env: Env, s: State, t: Touch, now: int)
    requires !t.delta.Unset?
    ensures var r := Settle(env, s, t, now);
            r.data == s.data && r.currentStory == s.currentStory && r.calls == s.calls &&
            r.touch == Some(Released(t)) && !r.touch.value.listening && r.touch.value.offset.None? &&
            |r.dom| == |s.dom| &&
            (forall i :: 0 <= i < |s.dom| ==> r.dom[i] == s.dom[i].(paused := r.dom[i].paused)) &&
            Find(r.dom, WithRole(Viewing)) == Find(s.dom, WithRole(Viewing))
  {
    ReleaseDecision(env, s, t, now);
    var vk := Find(s.dom, WithRole(Viewing));
    var s1 := Release(env, s, t, now).(touch := Some(Released(t)));
    assert s1.dom == s.dom && s1.data == s.data && s1.currentStory == s.currentStory && s1.calls == s.calls;
    if vk.None? {
      assert Settle(env, s, t, now) == s1;
    } else {
      var r := Resume(s1, s.dom[vk.value]);
      ResumeEffect(s1, s.dom[vk.value]);
      assert Settle(env, s, t, now) == r;
      assert forall i :: 0 <= i < |s.dom| ==> r.dom[i].roles == s.dom[i].roles;
      FindSameRoles(s.dom, r.dom, Viewing);
    }
  }

  /** Playing the active item again and unpausing changes no panel but its `paused`
      class, and no data, story, callback or gesture state. */
  lemma ResumeEffect(s: State, p: Panel)
    ensures var r := Resume(s, p);
            |r.dom| == |s.dom| &&
            (forall i :: 0 <= i < |s.dom| ==> r.dom[i] == s.dom[i].(paused := r.dom[i].paused)) &&
            r.data == s.data && r.currentStory == s.currentStory && r.calls == s.calls && r.touch == s.touch
  {
    var idx := match FirstItem(p.items, IsActive) case Some(a) => a as int case None => -1;
    var s1 := Play(s, p, idx, false);
    if 0 <= idx < |p.items| {
      PlayEffect(s, p, idx, false);
    }
    assert s1.dom == s.dom && s1.data == s.data && s1.currentStory == s.currentStory &&
           s1.calls == s.calls && s1.touch == s.touch;
    match Find(s1.dom, WithUid(p.uid)) {
      case None =>
      case Some(j) =>
        assert Resume(s, p) == s1.(dom := s1.dom[j := s1.dom[j].(paused := false)]);
    }
  }

  /** Panels with the same roles answer a role query alike. */
  lemma {:induction false} FindSameRoles(a: seq<Panel>, b: seq<Panel>, role: Role)
    requires |a| == |b| && forall i :: 0 <= i < |a| ==> a[i].roles == b[i].roles
    ensures Find(a, WithRole(role)) == Find(b, WithRole(role))
    decreases |a|
  {
    if |a| > 0 {
      FindSameRoles(a[1..], b[1..], role);
    }
  }

  /** A release after the tap timer expired (or was cleared) calls no callback. */
  lemma TouchEndWithoutTap(env: Env, s: State, now: int, hooks: Hooks)
    requires s.touch.Some? && !s.touch.value.nextTimer
    ensures TouchEnd(env, s, now, hooks).Done?
    ensures TouchEnd(env, s, now, hooks).state.calls == s.calls
  {
    var t := s.touch.value;
    if t.listening && !(t.offset.Some? && !t.offset.value.valid) && !t.delta.Unset? {
      SettleKeepsContent(env, s, t, now);
    }
    if t.listening && !(t.offset.Some? && !t.offset.value.valid) && t.delta.Unset? {
      assert Release(env, s, t, now) == s;
      ResumeKeepsCalls(s.(touch := Some(Released(t))), Find(s.dom, WithRole(Viewing)));
    }
  }

  /** Resuming the viewing panel calls no callback. */
  lemma ResumeKeepsCalls(s: State, vk: Option<nat>)
    requires vk.Some? ==> vk.value < |s.dom|
    ensures vk.Some? ==> Resume(s, s.dom[vk.value]).calls == s.calls
  {
    if vk.Some? {
      ResumeEffect(s, s.dom[vk.value]);
    }
  }

  /** The 250 ms timer of the gesture firing ends the chance of a tap. */
  lemma TimerExpiryPreventsTap(env: Env, s: State, now: int, hooks: Hooks)
    requires s.touch.Some? && s.touch.value.tapTimers > 0
    ensures !NextTimerElapses(s).touch.value.nextTimer
    ensures TouchEnd(env, NextTimerElapses(s), now, hooks).state.calls == s.calls
  {
    TouchEndWithoutTap(env, NextTimerElapses(s), now, hooks);
  }

  /** The state `touchEnd` hands to its tap branch. */
  function TapState(env: Env, s: State, t: Touch, now: int): State
  {
    Settle(env, s, t, now).(touch := Some(Released(t).(nextTimer := false, tapTimers := Dec(t.tapTimers))))
  }

  /** A tap on a muted viewing panel while a video is current unmutes it and does not
      navigate: no callback, the video plays and the viewing panel is not paused. */
  lemma TouchEndTapUnmutes(env: Env, s: State, now: int, hooks: Hooks)
    requires s.touch.Some? && s.touch.value.listening && s.touch.value.nextTimer && !s.touch.value.delta.Unset?
    requires s.touch.value.offset.Some? ==> s.touch.value.offset.value.valid
    requires DistinctUids(s.dom)
    requires var vk := Find(s.dom, WithRole(Viewing));
             vk.Some? && s.dom[vk.value].muted && s.currentVideo.Some?
    ensures var r := TouchEnd(env, s, now, hooks);
            var vk := Find(s.dom, WithRole(Viewing)).value;
            r.Done? && r.state.calls == s.calls && s.currentVideo.value in r.state.playing &&
            r.state.touch.Some? && !r.state.touch.value.nextTimer && r.state.data == s.data &&
            |r.state.dom| == |s.dom| && !r.state.dom[vk].paused
  {
    var t := s.touch.value;
    var vk := Find(s.dom, WithRole(Viewing)).value;
    var v := s.currentVideo.value;
    var s3 := TapState(env, s, t, now);
    assert DistinctUids(s3.dom) && |s3.dom| == |s.dom| && s3.data == s.data && s3.calls == s.calls &&
           s3.touch.Some? && !s3.touch.value.nextTimer by {
      SettleKeepsContent(env, s, t, now);
      assert forall i :: 0 <= i < |s.dom| ==> s3.dom[i].uid == s.dom[i].uid;
    }
    TouchEndUnmuteBranch(env, s, now, hooks);
    UnmuteUnpauses(s3, v, vk);
  }

  /** The branch `touchEnd` takes on a muted viewing panel with a current video. */
  lemma TouchEndUnmuteBranch(env: Env, s: State, now: int, hooks: Hooks)
    requires s.touch.Some? && s.touch.value.listening && s.touch.value.nextTimer && !s.touch.value.delta.Unset?
    requires s.touch.value.offset.Some? ==> s.touch.value.offset.value.valid
    requires var vk := Find(s.dom, WithRole(Viewing));
             vk.Some? && s.dom[vk.value].muted && s.currentVideo.Some?
    ensures var s3 := TapState(env, s, s.touch.value, now);
            var vk := Find(s.dom, WithRole(Viewing)).value;
            |s3.dom| == |s.dom| &&
            TouchEnd(env, s, now, hooks) == Done(Unmute(s3, s.currentVideo.value, Some(s3.dom[vk].uid)))
  {
    var t := s.touch.value;
    SettleKeepsContent(env, s, t, now);
    ReleaseDecision(env, s, t, now);
  }

  /** `unmuteVideoItem(video, viewer)` plays the video, leaves the viewer unpaused and
      changes no data, callback or gesture state. */
  lemma UnmuteUnpauses(s: State, v: VideoRef, k: nat)
    requires k < |s.dom| && DistinctUids(s.dom)
    ensures var r := Unmute(s, v, Some(s.dom[k].uid));
            |r.dom| == |s.dom| && !r.dom[k].paused && v in r.playing &&
            r.data == s.data && r.calls == s.calls && r.touch == s.touch
  {
    var dom1 := DropMuted(s.dom, v);
    DropMutedKeepsFrame(s.dom, v);
    assert forall i :: 0 <= i < |s.dom| ==> dom1[i].uid == s.dom[i].uid;
    FindUidAt(dom1, k);
  }

  /** Otherwise the tap navigates, with the event: forward when right of the first
      third of the screen or when `previousTap` is off. The navigation acts on the same
      story and items as before the release. Without a recorded start offset the
      handler throws. */
  lemma TouchEndTapNavigates(env: Env, s: State, now: int, hooks: Hooks)
    requires s.touch.Some? && s.touch.value.listening && s.touch.value.nextTimer && !s.touch.value.delta.Unset?
    requires s.touch.value.offset.Some? ==> s.touch.value.offset.value.valid
    requires var vk := Find(s.dom, WithRole(Viewing));
             !(vk.Some? && s.dom[vk.value].muted && s.currentVideo.Some?)
    ensures var t := s.touch.value;
            var r := TouchEnd(env, s, now, hooks);
            var s3 := TapState(env, s, t, now);
            (t.offset.None? ==> r == Threw(s3)) &&
            (t.offset.Some? ==>
               var dir := if TapForward(t.offset.value.x, env.host.screenWidth, env.config.previousTap) then Forward else Backward;
               r == NavigateItem(env, s3, dir, true, hooks)) &&
            s3.data == s.data && s3.currentStory == s.currentStory && s3.calls == s.calls &&
            |s3.dom| == |s.dom| && (forall i :: 0 <= i < |s.dom| ==> s3.dom[i].items == s.dom[i].items && s3.dom[i].story == s.dom[i].story)
  {
    var t := s.touch.value;
    SettleKeepsContent(env, s, t, now);
    ReleaseDecision(env, s, t, now);
    var s3 := TapState(env, s, t, now);
    assert Find(s3.dom, WithRole(Viewing)) == Find(s.dom, WithRole(Viewing));
    assert forall i :: 0 <= i < |s.dom| ==> s3.dom[i].muted == s.dom[i].muted;
  }
}
