// `zuck.navigateItem`: it steps `currentItem` by one inside the current story's
// panel, hands over to `modal.next` past the last item, and does nothing before the
// first one.
module ItemLemmas {
  import opened Common
  import opened Panels
  import opened Navigation
  import opened MediaLemmas
  import opened StoryLemmas

  /** `currentItem + directionNumber`. */
  function StepTarget(cur: nat, dir: Dir): int
  {
    if dir == Backward then cur - 1 else cur + 1
  }

  /** The current story has data and a panel; `k` is that panel. */
  predicate Located(s: State, k: nat)
  {
    s.currentStory.Some? && s.currentStory.value in s.data &&
    Find(s.dom, OfStory(s.currentStory.value)) == Some(k)
  }

  /** A navigation the callback lets through, towards an item that exists: the
      callback is logged, `currentItem` takes the target index, the panel's flags step
      and no other panel's items change; the target's video becomes current. */
  lemma NavigateItemProceeds(env: Env, s: State, k: nat, dir: Dir, withEvent: bool, hooks: Hooks)
    requires Located(s, k) && hooks.navigate
    requires var cur := s.data[s.currentStory.value].currentItem;
             cur < |s.dom[k].items| && 0 <= StepTarget(cur, dir) < |s.dom[k].items|
    ensures var c := s.currentStory.value;
            var cur := s.data[c].currentItem;
            var target := StepTarget(cur, dir) as nat;
            var it := s.dom[k].items[target];
            var r := NavigateItem(env, s, dir, withEvent, hooks);
            r.Done? && r.state.calls == s.calls + [OnNavigateItem(c)] &&
            r.state.data == s.data[c := s.data[c].(currentItem := target)] &&
            |r.state.dom| == |s.dom| &&
            r.state.dom[k].items == StepFlags(s.dom[k].items, cur, target, dir) &&
            (forall i :: 0 <= i < |s.dom| && i != k ==> r.state.dom[i].items == s.dom[i].items) &&
            r.state.currentVideo == (if it.isVideo && it.hasVideo then Some(VideoRef(s.dom[k].uid, target)) else None) &&
            r.state.currentStory == s.currentStory && r.state.order == s.order && r.state.pending == s.pending
  {
    var c := s.currentStory.value;
    var cur := s.data[c].currentItem;
    var target := StepTarget(cur, dir) as nat;
    var p := s.dom[k];
    var s0 := s.(calls := s.calls + [OnNavigateItem(c)]);
    var p1 := p.(items := StepFlags(p.items, cur, target, dir));
    var s1 := Proceeded(s0, k, p1, c, target);
    NavigateItemProceedUnfold(env, s, k, dir, withEvent, hooks, c, cur, target, p1);
    PlayEffect(s1, p1, target, withEvent);
    var r := Play(s1, p1, target, withEvent);
    assert r.calls == s0.calls && r.data == s1.data && r.currentStory == s.currentStory;
    assert |r.dom| == |s.dom| && r.dom[k].items == p1.items;
  }

  /** A callback that does not proceed leaves everything but the log as it was. */
  lemma NavigateItemHeldByCallback(env: Env, s: State, k: nat, dir: Dir, withEvent: bool, hooks: Hooks)
    requires Located(s, k) && !hooks.navigate
    requires 0 <= StepTarget(s.data[s.currentStory.value].currentItem, dir) < |s.dom[k].items|
    ensures NavigateItem(env, s, dir, withEvent, hooks) ==
            Done(s.(calls := s.calls + [OnNavigateItem(s.currentStory.value)]))
  {
  }

  /** Before the first item, `previous` does nothing and calls no callback. */
  lemma NavigateItemBeforeFirst(env: Env, s: State, k: nat, withEvent: bool, hooks: Hooks)
    requires Located(s, k) && s.data[s.currentStory.value].currentItem == 0
    ensures NavigateItem(env, s, Backward, withEvent, hooks) == Done(s)
  {
  }

  /** Past the last item, `next` is `modal.next`. */
  lemma NavigateItemAfterLast(env: Env, s: State, k: nat, withEvent: bool, hooks: Hooks)
    requires Located(s, k) && s.data[s.currentStory.value].currentItem + 1 >= |s.dom[k].items|
    ensures NavigateItem(env, s, Forward, withEvent, hooks) == ModalNext(env, s, hooks)
  {
  }

  /** Without a panel for the current story nothing happens; without story data for it
      the lookup of `currentItem` throws before anything changes. */
  lemma NavigateItemWithoutPanel(env: Env, s: State, dir: Dir, withEvent: bool, hooks: Hooks)
    ensures s.currentStory.None? || s.currentStory.value !in s.data ==>
              NavigateItem(env, s, dir, withEvent, hooks) == Threw(s)
    ensures s.currentStory.Some? && s.currentStory.value in s.data && Find(s.dom, OfStory(s.currentStory.value)).None? ==>
              NavigateItem(env, s, dir, withEvent, hooks) == Done(s)
  {
  }

  /** `modal.next` moves no story's `currentItem` and changes its items at most in
      their `seen` flags; with `reactive` it changes no story's items. */
  lemma ModalNextKeepsPositions(env: Env, s: State, hooks: Hooks)
    ensures var r := ModalNext(env, s, hooks).state;
            r.data.Keys == s.data.Keys &&
            (forall sid :: sid in s.data ==>
               r.data[sid].currentItem == s.data[sid].currentItem && SameButSeen(s.data[sid].items, r.data[sid].items)) &&
            (env.config.reactive ==> forall sid :: sid in s.data ==> r.data[sid].items == s.data[sid].items)
  {
    var s0 := s.(calls := s.calls + [OnEnd(s.currentStory)]);
    var o := MarkSeen(env, s0);
    if hooks.end && o.Done? {
      assert ModalNext(env, s, hooks) == Done(AfterEnd(env, o.state, hooks));
      AfterEndKeepsMarks(env, o.state, hooks);
      if s0.currentStory.Some? && s0.currentStory.value in s0.order {
        MarkSeenEffect(env, s0);
        MarkSeenRebuildsItems(env, s0);
        return;
      }
      assert o.state == s0;
    }
    forall sid | sid in s.data
      ensures SameButSeen(s.data[sid].items, s.data[sid].items)
    {
    }
  }

  /** Whatever happens, `currentItem` moves only for the current story, only by one
      step, and only onto an item its panel has. */
  lemma NavigateItemStepsByOne(env: Env, s: State, dir: Dir, withEvent: bool, hooks: Hooks, sid: StoryId)
    requires sid in s.data
    ensures var r := NavigateItem(env, s, dir, withEvent, hooks).state;
            sid in r.data &&
            (r.data[sid].currentItem != s.data[sid].currentItem ==>
               s.currentStory == Some(sid) && Find(s.dom, OfStory(sid)).Some? &&
               r.data[sid].currentItem == StepTarget(s.data[sid].currentItem, dir) &&
               r.data[sid].currentItem < |s.dom[Find(s.dom, OfStory(sid)).value].items|)
  {
    if s.currentStory.Some? && s.currentStory.value in s.data {
      var c := s.currentStory.value;
      var k := Find(s.dom, OfStory(c));
      if k.Some? {
        var cur := s.data[c].currentItem;
        var target := StepTarget(cur, dir);
        if 0 <= target < |s.dom[k.value].items| {
          if hooks.navigate && cur < |s.dom[k.value].items| {
            NavigateItemProceeds(env, s, k.value, dir, withEvent, hooks);
          }
        } else if dir == Forward {
          ModalNextKeepsPositions(env, s, hooks);
        }
      }
    }
  }
}
