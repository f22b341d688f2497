# The zuck.js story viewer, modelled in Dafny

zuck.js shows a timeline of stories, each a list of photo or video items. Opening a
story fills a modal slider with up to three `.story-viewer` panels:

- the panel of the story before it, in the `previous` role;
- the story's own panel, in the `viewing` role;
- the panel of the story after it, in the `next` role.

Moving to another item or story is driven by four things: taps, horizontal drags,
callbacks the page supplies (`onOpen`, `onView`, `onEnd`, `onClose`,
`onNavigateItem`), and a 650 ms timeout that rotates the panels after a slide. Finished
stories are remembered as seen in `localStorage` and move to the end of the timeline.

The model has two layers.

* **A state machine** (module `Navigation`). `State` gathers everything the handlers
  read and write:
  - `zuck.data` and the timeline order;
  - `internalData` (`currentStory`, `seenItems`, `currentVideoElement`);
  - the key/value store;
  - the slider and its panels in document order, each panel with its role classes and
    its item flags (`seen`, `active`);
  - the set of media elements that are playing;
  - the pending `moveStoryItem` timeouts, with what their closures captured;
  - the closure of `createStoryTouchEvents`;
  - the log of user callbacks invoked.

  Each handler is a function from the old state to an `Outcome`. `Threw(s)` is the state
  the page is left in when a statement raises a TypeError. `Done(s)` is normal
  completion.

  The lemma modules `MediaLemmas`, `ItemLemmas`, `StoryLemmas`, `GestureLemmas` and
  `InvariantLemmas` prove what each handler does. They also prove that every handler
  keeps `Inv`: the timeline lists distinct stories that have data, every panel agrees
  with the data it shows (one active item, at `currentItem`, every item before it
  seen), no two panels share an element or a story, and a closed modal has no panels
  and no gesture listeners. Every handler except `touchEnd` also keeps the
  single-media rule; for `touchEnd` the lemmas give the exact condition under which it
  keeps the rule, and a state in which it breaks it.
* **The viewer object** (class `Viewer.Zuck`). Its fields mirror `State`, and each
  handler is a method that changes those fields one statement at a time, as the
  JavaScript does. Each method is proved to end in the state the corresponding
  `Navigation` function gives. The handler methods also carry both invariants.
  `RenderItems` is the item loop of `createStoryViewer`, proved against its
  specification functions.

Pure helpers get their own modules:

- `Js`: `get` and `option`.
- `Storage`: `saveLocalData`, `getLocalData` and the key naming.
- `Gesture`: the tap, swipe, scroll and cube-angle thresholds.
- `Timeline`: timeline siblings and the seen-to-the-end reordering.
- `Panels`: item flags and panel queries.

User callbacks are parameters (`Hooks`): each callback either calls its `callback`
argument before returning or does not call it. Layout facts (`slideWidth`,
`slideHeight`, the modal's `offsetWidth`, `window.screen.width`, the `findPos`
offsets) and whether the store accepts writes are fixed inputs (`Host`). Clock values
are passed in as `now`. Timers that fire later are explicit events:

- `CompleteMove` is the oldest `moveStoryItem` timeout firing.
- `NextTimerElapses` is the 250 ms tap timer firing.

`touchEnd` treats a release as a tap whenever its 250 ms `nextTimer` is still set
(the check spans `dist/zuck.js:821-845`). It never looks at how far the pointer moved,
so a fast committed swipe also runs the tap branch after `moveStoryItem`.

## Model

| member | source | states |
|---|---|---|
| Common.Abs | dist/zuck.js:784 | `Math.abs`: the result is `x` or `-x` and never negative |
| Js.Member | dist/zuck.js:81 | property access throws exactly on `null`/`undefined` and otherwise yields the property |
| Js.Get | dist/zuck.js:14-20 | `get` is truthy exactly when container and property are, returning the property, else `''` |
| Js.CallerOptionWins | dist/zuck.js:74-88 | a defined caller option is returned as given |
| Js.DefaultOptionUsed | dist/zuck.js:74-88 | an undefined or missing caller option falls back to the default |
| Js.NestedOptionMerged | dist/zuck.js:79-84 | `option(name, prop)` takes each property from the caller's group when defined there, else from the default group |
| Js.OptionLookupTotal | dist/zuck.js:74-88 | with a default group present, `option` never throws |
| Storage.KeyName | dist/zuck.js:1172 | the key is `zuck-` + id + `-` + key, with length and parts pinned down |
| Storage.KeyNameInjective | dist/zuck.js:1172 | two keys of one timeline never share a storage name |
| Storage.KeyNameInjectiveInId | dist/zuck.js:1180 | one key under two timeline ids never shares a storage name |
| Storage.Save | dist/zuck.js:1169-1176 | with storage on and writable the key holds the data; other keys are left alone; otherwise the store is unchanged (the swallowed exception) |
| Storage.Load | dist/zuck.js:1178-1185 | a value is found exactly when storage is on and the key is present, and it is the stored one |
| Storage.InitialSeen | dist/zuck.js:1191 | `seenItems` starts as the stored map, or empty when nothing is stored |
| Storage.SaveThenLoad | dist/zuck.js:1169-1185 | a save followed by a load returns the saved data |
| Storage.SaveKeepsOtherKeys | dist/zuck.js:1169-1185 | saving one key does not change what another key loads |
| Storage.SaveKeepsOtherTimelines | dist/zuck.js:1169-1185 | saving under one timeline id does not change what another timeline loads |
| Gesture.CommitMatchesRealThreshold | dist/zuck.js:783-784 | the integer commit test equals the real-number test: under 300 ms and over 25 px, or over a third of the slide width |
| Gesture.TapMatchesRealThreshold | dist/zuck.js:826 | the integer tap test equals "x beyond a third of the screen width, or `previousTap` off" |
| Gesture.CubeAbortsIffAngleOutOfRange | dist/zuck.js:122-131 | with the cube effect, `translate` gives up exactly when the rotation angle leaves [-90, 90] degrees |
| Gesture.FullWidthIsQuarterTurn | dist/zuck.js:122-131 | a full-width offset is a 90-degree turn either way and is not refused |
| Timeline.IndexOf | dist/zuck.js:1075 | the first position of a story in the timeline, or none exactly when it is absent |
| Timeline.IndexOfDistinct | dist/zuck.js:1075 | in a timeline without repeats, the position of the story at `j` is `j` |
| Timeline.Sibling | dist/zuck.js:1069-1085 | `getStoryMorningGlory`: nothing without a current story; the element lookup fails exactly when the current story is not in the timeline; a found sibling is the adjacent story with data |
| Timeline.SiblingRoundTrip | dist/zuck.js:1069-1085 | the `previous` sibling of the `next` sibling is the story itself |
| Timeline.SeenToEndPermutes | dist/zuck.js:1087-1098 | moving seen stories to the end neither loses nor duplicates a story |
| Timeline.SeenToEndPartitions | dist/zuck.js:1087-1098 | after the move no unseen story follows a seen one |
| Timeline.SeenToEndStable | dist/zuck.js:1087-1098 | seen and unseen stories each keep their relative order |
| Timeline.SeenToEndIdempotent | dist/zuck.js:1087-1098 | repeating the move changes nothing |
| Timeline.SeenToEndDistinct | dist/zuck.js:1087-1098 | a timeline without repeats stays without repeats |
| Panels.MarkSeenBefore | dist/zuck.js:603-610 | keeps the number of items |
| Panels.Views | dist/zuck.js:616-617 | one rendered view per item |
| Panels.MarkSeenBeforeMeaning | dist/zuck.js:606-610 | items before `currentItem` become seen, the rest are unchanged, and nothing else about an item changes |
| Panels.MarkSeenBeforeIdempotent | dist/zuck.js:606-610 | marking twice is marking once |
| Panels.ViewsOfMarked | dist/zuck.js:346-357 | the rendered panel has exactly one active item, at `currentItem`, and every item before it is seen |
| Panels.StepFlagsEffect | dist/zuck.js:1329-1342 | forward sets the old item seen, backward unsets it; the old item loses `active`; the target loses `seen` and gains `active`; other items are untouched |
| Panels.StepFlagsKeepsOneActive | dist/zuck.js:1329-1342 | with one active item before the step, the target is the only active item after it |
| Panels.StepFlagsKeepsSeenPrefix | dist/zuck.js:1329-1342 | every item before the new position is seen |
| Panels.StepForwardThenBack | dist/zuck.js:1329-1342 | stepping forward then back restores an unseen active item's flags |
| Panels.FirstItem | dist/zuck.js:565 | the first item showing a flag, or none exactly when no item shows it |
| Panels.Find | dist/zuck.js:503-505 | `querySelector`: the first panel matching, or none exactly when none matches |
| Panels.RemoveAt | dist/zuck.js:540 | `removeChild`: one panel fewer, the others in order |
| Panels.Retire | dist/zuck.js:543-547 | the old viewing panel is stopped, takes the useless role and loses `viewing`; nothing else changes |
| Panels.Promote | dist/zuck.js:549-553 | the target panel is viewing and not stopped, loses the target role; nothing else changes |
| Panels.Reparsed | dist/zuck.js:986-1004 | `parseItems` reads back as many items as the markup holds |
| Panels.ReparsedMeaning | dist/zuck.js:285-294 | items read back from the `timelineStoryItem` markup keep everything but their `seen` flag, which none has; a story rendered from them shows exactly the items before `currentItem` as seen |
| Navigation.Init | dist/zuck.js:1189-1191 | a new instance has no slider, panels, media or timeouts, and `seenItems` is read back from the store |
| Navigation.CreateViewer | dist/zuck.js:586-684 | `createStoryViewer` keeps the set of stories with data and the timeline |
| Navigation.Pause | dist/zuck.js:1141-1149 | `pauseVideoItem`: the current video element stops (proved in `MediaLemmas.PauseStopsCurrent`) |
| Navigation.Unmute | dist/zuck.js:1151-1166 | `unmuteVideoItem`: the video plays, its panel drops `muted` through `volumechange`, the viewer drops `paused` (`MediaLemmas.UnmuteEffect`) |
| Navigation.DropMuted | dist/zuck.js:650-652 | the `volumechange` handler of a panel's first video drops the panel's `muted` class (`MediaLemmas.DropMutedKeepsFrame`) |
| Navigation.Unpause | dist/zuck.js:1163-1165 | the viewer passed to `unmuteVideoItem` loses `paused` (`MediaLemmas.UnpauseKeepsFrame`) |
| Navigation.Play | dist/zuck.js:1100-1139 | `playVideoItem`: missing elements do nothing; otherwise the current video is paused and a video item becomes the current, playing one, an image clears it (`MediaLemmas.PlayEffect`, `PlayWithoutElements`) |
| Navigation.Translate | dist/zuck.js:121-141 | `translate`: the cube guard refuses a quarter turn or more; without a slider nothing is applied (`InvariantLemmas.TranslateKeepsInv`, `Gesture.CubeAbortsIffAngleOutOfRange`) |
| Navigation.ClearSlider | dist/zuck.js:969 | emptying the modal content removes the panels and stops their media (`StoryLemmas.ModalCloseEmpties`) |
| Navigation.RenderPanel | dist/zuck.js:596-684 | the panel `createStoryViewer` builds (`StoryLemmas.CreateViewerAddsPanel`) |
| Navigation.Rendered | dist/zuck.js:603-610 | the item loop marks the story's earlier items seen (`Panels.MarkSeenBeforeMeaning`) |
| Navigation.Staged | dist/zuck.js:672-677 | the viewing panel's current item plays before the panel is attached (`StoryLemmas.StagedKeepsScreen`) |
| Navigation.Attach | dist/zuck.js:679-683 | prepending or appending the panel, throwing without a slider (`InvariantLemmas.AttachKeepsInv`) |
| Navigation.MoveStory | dist/zuck.js:496-533 | `moveStoryItem`: no target, no change; otherwise the slider slides and a timeout is queued with the panels and slider it captured (`StoryLemmas.MoveStoryWithoutTarget`, `MoveStorySchedules`) |
| Navigation.Rotate | dist/zuck.js:535-553 | the timeout's class changes: the useless panel goes, the captured viewing panel retires, the captured target becomes viewing (`StoryLemmas.RotateEffect`) |
| Navigation.DropRole | dist/zuck.js:537-541 | the first panel in the useless role is removed (`StoryLemmas.DropRoleEffect`) |
| Navigation.RetireUid | dist/zuck.js:543-547 | the captured viewing panel, if attached, retires (`StoryLemmas.RetireUidEffect`) |
| Navigation.PromoteUid | dist/zuck.js:549-553 | the captured target, if attached, becomes viewing (`StoryLemmas.PromoteUidEffect`) |
| Navigation.Focus | dist/zuck.js:561-581 | the new story takes its active item, the captured slider returns to 0, the item plays and `onView` is called (`StoryLemmas.FocusKeepsPanels`, `FocusResetsCapturedSlider`) |
| Navigation.ResetSlider | dist/zuck.js:573 | `translate(modalSlider, '0', ...)` acts on the slider shown only while it is the captured element (`StoryLemmas.FocusResetsCapturedSlider`) |
| Navigation.Complete | dist/zuck.js:533-583 | the oldest timeout: rotate, add the neighbour's panel, focus (`StoryLemmas.CompleteKeepsRotation`, `MediaLemmas.TraceStaleTimeout`) |
| Navigation.ModalShow | dist/zuck.js:867-931 | `modal.show`: after `onOpen` proceeds, a new slider with the three panels and fresh gesture listeners (`StoryLemmas.ModalShowBuildsViewer`, `ShowRenewsSlider`) |
| Navigation.OpenSlider | dist/zuck.js:871-874 | a new, empty slider element at offset 0 replaces the modal content (`StoryLemmas.ShowRenewsSlider`) |
| Navigation.ShowViewers | dist/zuck.js:884-895 | the previous, viewing and next panels of `modal.show` (`StoryLemmas.ShowViewersEffect`) |
| Navigation.ShowNext | dist/zuck.js:890-895 | the next panel and the `onView` call (`StoryLemmas.ShowNextAppends`) |
| Navigation.MarkSeen | dist/zuck.js:934-943 | the seen bookkeeping of `modal.next` and `updateStorySeenPosition` (`StoryLemmas.MarkSeenEffect`, `MarkSeenRebuildsItems`) |
| Navigation.Reparse | dist/zuck.js:1087-1098 | `zuck.update(data, true)` on every seen timeline story rebuilds its items without `seen` (`StoryLemmas.MarkSeenRebuildsItems`, `RenderAfterRebuild`) |
| Navigation.ModalNext | dist/zuck.js:932-955 | `modal.next` (`StoryLemmas.ModalNextHeld`, `ModalNextMarksSeen`, `ModalNextOrder`) |
| Navigation.AfterEnd | dist/zuck.js:945-951 | without a next panel the modal closes, otherwise the slider moves on (`StoryLemmas.AfterEndKeepsMarks`) |
| Navigation.ModalClose | dist/zuck.js:956-976 | `modal.close`: after `onClose` proceeds the modal content is emptied (`StoryLemmas.ModalCloseEmpties`) |
| Navigation.NavigateItem | dist/zuck.js:1309-1359 | `zuck.navigateItem` (`ItemLemmas.NavigateItemProceeds`, `NavigateItemBeforeFirst`, `NavigateItemAfterLast`, `NavigateItemStepsByOne`) |
| Navigation.NavigateItemProceedUnfold | dist/zuck.js:1327-1353 | a proceeding step re-flags the panel, records the target and plays it |
| Navigation.Proceeded | dist/zuck.js:1329-1346 | the panel re-flagged and `currentItem` set to the target (`InvariantLemmas.ProceedKeepsInv`) |
| Navigation.TouchStart | dist/zuck.js:697-751 | `touchStart` (`GestureLemmas.TouchStartIgnored`, `TouchStartInBand`, `TouchStartAccepted`) |
| Navigation.TouchMove | dist/zuck.js:753-773 | `touchMove` (`GestureLemmas.TouchMoveClassifies`, `MovesKeepClassification`) |
| Navigation.Release | dist/zuck.js:782-806 | the `if (delta)` block of `touchEnd` (`GestureLemmas.ReleaseDecision`) |
| Navigation.Released | dist/zuck.js:796-806 | after a drag the closure forgets the touch and stops listening (`GestureLemmas.ReleaseDecision`) |
| Navigation.Resume | dist/zuck.js:815-819 | the viewing panel replays its active item and loses `paused` (`GestureLemmas.ResumeEffect`) |
| Navigation.Tap | dist/zuck.js:825-831 | the tap goes next on the right two thirds or without `previousTap` (`GestureLemmas.TouchEndTapNavigates`) |
| Navigation.Settle | dist/zuck.js:776-819 | `touchEnd` up to its tap test (`GestureLemmas.SettleKeepsContent`) |
| Navigation.TouchEnd | dist/zuck.js:775-847 | `touchEnd` (`GestureLemmas.TouchEndIgnored`, `TouchEndWithoutTap`, `TouchEndTapUnmutes`, `TouchEndTapNavigates`) |
| Navigation.TapBranch | dist/zuck.js:833-844 | a muted viewer with a remembered video is unmuted, anything else is a tap (`GestureLemmas.TouchEndUnmuteBranch`) |
| Navigation.NextTimerElapses | dist/zuck.js:746-749 | the 250 ms tap timer fires (`GestureLemmas.TimerExpiryPreventsTap`) |
| MediaLemmas.PauseStopsCurrent | dist/zuck.js:1141-1149 | `pauseVideoItem` stops exactly the current video and changes nothing else |
| MediaLemmas.PlayWithoutElements | dist/zuck.js:1104-1106 | without the item's pointer and element, `playVideoItem` does nothing |
| MediaLemmas.PlayEffect | dist/zuck.js:1100-1139 | the old current video is paused, the item's video becomes current and plays (or the current video is cleared for an image or a missing `<video>`); only unmuting touches panels |
| MediaLemmas.UnmuteEffect | dist/zuck.js:1151-1164 | `unmuteVideoItem` plays the video and clears at most `muted` on its own panel and `paused` on the viewer |
| MediaLemmas.DropMutedKeepsFrame | dist/zuck.js:650-652 | the `volumechange` handler changes at most the `muted` class of one panel: uids, stories, items, roles and `stopped` are kept |
| MediaLemmas.UnpauseKeepsFrame | dist/zuck.js:1161-1163 | removing `paused` from the viewer keeps uids, stories, items, roles and `stopped` of every panel |
| MediaLemmas.PlayKeepsSingleMedia | dist/zuck.js:1100-1139 | at most one playing video, the current one, before and after `playVideoItem` |
| MediaLemmas.PauseKeepsSingleMedia | dist/zuck.js:1141-1149 | `pauseVideoItem` keeps the single-media rule |
| MediaLemmas.UnmuteCurrentKeepsSingleMedia | dist/zuck.js:1151-1164 | unmuting the current video keeps the rule |
| MediaLemmas.CreateViewerKeepsSingleMedia | dist/zuck.js:586-684 | `createStoryViewer` keeps the rule |
| MediaLemmas.RotateKeepsSingleMedia | dist/zuck.js:534-553 | the panel rotation of the timeout keeps the rule (a removed panel's media stop) |
| MediaLemmas.FocusKeepsSingleMedia | dist/zuck.js:561-581 | the end of the timeout keeps the rule |
| MediaLemmas.CompleteKeepsSingleMedia | dist/zuck.js:533-583 | the whole `moveStoryItem` timeout keeps the rule |
| MediaLemmas.ShowKeepsSingleMedia | dist/zuck.js:867-931 | `modal.show` keeps the rule |
| MediaLemmas.MoveStoryKeepsSingleMedia | dist/zuck.js:496-533 | `moveStoryItem` keeps the rule |
| MediaLemmas.CloseKeepsSingleMedia | dist/zuck.js:956-976 | `modal.close` keeps the rule |
| MediaLemmas.NextKeepsSingleMedia | dist/zuck.js:932-955 | `modal.next` keeps the rule |
| MediaLemmas.NavigateItemKeepsSingleMedia | dist/zuck.js:1309-1359 | `navigateItem` keeps the rule |
| MediaLemmas.TouchStartKeepsSingleMedia | dist/zuck.js:697-751 | `touchStart` keeps the rule |
| MediaLemmas.TouchMoveKeepsSingleMedia | dist/zuck.js:753-773 | `touchMove` keeps the rule |
| MediaLemmas.NextTimerKeepsSingleMedia | dist/zuck.js:746-749 | the tap timer firing keeps the rule |
| MediaLemmas.ReleaseKeepsMedia | dist/zuck.js:782-807 | the release block of `touchEnd` does not change which media play or which is current |
| MediaLemmas.ResumeKeepsSingleMedia | dist/zuck.js:815-819 | replaying the viewing panel keeps the rule, and says which video is current afterwards |
| MediaLemmas.TouchEndKeepsSingleMedia | dist/zuck.js:775-847 | `touchEnd` keeps the rule when the video it remembered at line 809 is the one the replay makes current |
| MediaLemmas.TraceStaleTimeout | dist/zuck.js:533-583 | a timeout that fires after the modal was closed and reopened finds neither captured panel, yet makes the next story current and plays its video in the new next panel |
| MediaLemmas.TraceReaches | dist/zuck.js:496-583 | the run open, slide, close, reopen, timeout, touch reaches a state whose current video is in the next panel while the viewing panel shows an image |
| MediaLemmas.TraceAtTouchOk | dist/zuck.js:697-751 | in that state `Inv` and the single-media rule hold, but the current video is not the viewing panel's |
| MediaLemmas.TraceRelease | dist/zuck.js:809-837 | from that state a release within 250 ms leaves a video playing while no video is current |
| MediaLemmas.TouchEndCanBreakSingleMedia | dist/zuck.js:809-837 | a state reached from a new instance in which `touchEnd` replays an image, then unmutes the remembered video, leaving a non-current video playing |
| ItemLemmas.NavigateItemProceeds | dist/zuck.js:1309-1353 | a permitted step logs `onNavigateItem`, steps `currentItem` and the panel's flags by one, leaves the other panels alone and plays the target |
| ItemLemmas.NavigateItemHeldByCallback | dist/zuck.js:1327-1353 | a callback that does not proceed changes nothing but the log |
| ItemLemmas.NavigateItemBeforeFirst | dist/zuck.js:1354-1358 | backward from the first item does nothing |
| ItemLemmas.NavigateItemAfterLast | dist/zuck.js:1354-1358 | forward past the last item is `modal.next` |
| ItemLemmas.NavigateItemWithoutPanel | dist/zuck.js:1310-1317 | without story data the handler throws unchanged; without a panel it returns unchanged |
| ItemLemmas.ModalNextKeepsPositions | dist/zuck.js:932-955 | `modal.next` moves no story's `currentItem` and changes its items at most in their `seen` flags; with `reactive` it changes no items |
| ItemLemmas.NavigateItemStepsByOne | dist/zuck.js:1309-1359 | `currentItem` changes only for the current story, by one step, onto an item its panel has |
| StoryLemmas.CreateViewerDuplicateGuard | dist/zuck.js:595-600 | a story whose panel is already in the slider is not rendered again and nothing changes |
| StoryLemmas.CreateViewerAddsPanel | dist/zuck.js:586-684 | otherwise earlier items become seen and one panel is prepended (previous) or appended, muted, with one active item, stopped unless forced |
| StoryLemmas.MoveStoryWithoutTarget | dist/zuck.js:508-510 | without a panel in the target direction, `moveStoryItem` changes nothing |
| StoryLemmas.MoveStorySchedules | dist/zuck.js:496-533 | otherwise one timeout is scheduled with the target and viewing panels and the current slider captured, and only the slider offset changes |
| StoryLemmas.RemoveAtKeepsOthers | dist/zuck.js:537-541 | removing a panel keeps every other panel attached and the uids distinct |
| StoryLemmas.RotateEffect | dist/zuck.js:534-553 | the target's story is current, the first useless panel is gone, the captured target is viewing and the captured viewer has the useless role, stopped |
| StoryLemmas.DropRoleEffect | dist/zuck.js:537-541 | only the first panel in the useless role is removed |
| StoryLemmas.RetireUidEffect | dist/zuck.js:543-547 | only the captured viewing panel is retired, when still attached |
| StoryLemmas.PromoteUidEffect | dist/zuck.js:549-553 | only the captured target panel is promoted, when still attached |
| StoryLemmas.UpdateUid | dist/zuck.js:543-553 | relabelling one panel keeps every uid lookup and changes only that panel |
| StoryLemmas.CreateViewerGrows | dist/zuck.js:679-683 | `createStoryViewer` adds at most one panel, at the front or the back, and keeps the current story, the slider element and the timeouts |
| StoryLemmas.StagedKeepsScreen | dist/zuck.js:603-671 | rendering a panel marks earlier items seen and hands out a uid; for the viewing role it also plays the current item; the panels on screen are not touched |
| StoryLemmas.FocusKeepsPanels | dist/zuck.js:561-581 | the end of the timeout keeps the panels' roles and the current story, with `onView` last when it completes |
| StoryLemmas.FocusResetsCapturedSlider | dist/zuck.js:501-573 | the timeout returns the slider to 0 only while it is the captured element; after a rebuild the slider shown keeps its offset |
| StoryLemmas.ShowRenewsSlider | dist/zuck.js:871-874 | `modal.show` builds a new slider element and keeps the pending timeouts, which captured older ones |
| StoryLemmas.CompleteKeepsRotation | dist/zuck.js:533-583 | after the rotation the timeout only adds the neighbour's panel, so the rotated roles stay; `onView` is called for the target's story |
| StoryLemmas.ModalNextHeld | dist/zuck.js:954 | an `onEnd` that does not proceed changes nothing but the log |
| StoryLemmas.MarkSeenEffect | dist/zuck.js:934-943 | the story and its `seenItems` entry are seen, `seenItems` is saved under `zuck-<id>-seenItems`, the timeline is a permutation, no `currentItem` moves, items change at most in their `seen` flags, and nothing on screen changes |
| StoryLemmas.MarkSeenRebuildsItems | dist/zuck.js:1087-1098 | with `reactive` no items change; otherwise every item of every seen timeline story loses `seen`, and other stories keep their items |
| StoryLemmas.RenderAfterRebuild | dist/zuck.js:603-610 | a seen story rendered after the rebuild shows exactly its items before `currentItem` as seen |
| StoryLemmas.ModalNextMarksSeen | dist/zuck.js:932-955 | once `onEnd` proceeds the seen bookkeeping is done, then the viewer slides to the next panel or closes |
| StoryLemmas.ReloadAfterNextSeesStory | dist/zuck.js:941 | a page reloaded after `modal.next` starts with the departed story seen |
| StoryLemmas.ModalNextOrder | dist/zuck.js:937-943 | a story without a timeline element is not marked; with `reactive` the timeline keeps its order |
| StoryLemmas.AfterEndKeepsMarks | dist/zuck.js:945-951 | closing or moving on after the seen bookkeeping keeps the data, `seenItems`, the storage and the timeline order |
| StoryLemmas.ModalCloseEmpties | dist/zuck.js:956-976 | once `onClose` proceeds: no slider, no panels, no gesture listeners, no removed media playing; nothing else changes |
| StoryLemmas.ModalShowBuildsViewer | dist/zuck.js:867-931 | the story is current, its panel the only viewing one, started and playing, between its neighbours' panels; `onOpen` then `onView` are logged |
| StoryLemmas.ShowViewersEffect | dist/zuck.js:883-894 | the previous, viewing and next panels `modal.show` creates in a fresh slider |
| StoryLemmas.ShowPreviousPanel | dist/zuck.js:883-887 | in a fresh slider the previous sibling, if any, gets the only panel, in the previous role, and nothing is thrown |
| StoryLemmas.ShowViewingPanel | dist/zuck.js:889 | the opened story's panel is appended in the viewing role, not stopped, and nothing is thrown |
| StoryLemmas.SiblingsApart | dist/zuck.js:1069-1085 | in a timeline without repeats the previous and next siblings of a story are neither that story nor each other |
| StoryLemmas.ShowNextAppends | dist/zuck.js:890-926 | the next story's panel is appended and `onView` is logged |
| GestureLemmas.TouchStartIgnored | dist/zuck.js:697-707 | nothing happens on a link or before the listeners exist; with no panel the `offsetWidth` read throws |
| GestureLemmas.TouchStartInBand | dist/zuck.js:721-723 | a touch in the top or bottom 80 px only records an invalid offset |
| GestureLemmas.TouchStartAccepted | dist/zuck.js:724-750 | otherwise a gesture starts: valid offset, no classification, empty delta, listeners on, tap timer set, viewer and video paused |
| GestureLemmas.TouchMoveClassifies | dist/zuck.js:758-771 | a move records the delta, classifies on the first move, and moves the slider only when not scrolling |
| GestureLemmas.TouchMoveIgnored | dist/zuck.js:758 | without a valid started gesture a move does nothing |
| GestureLemmas.MovesKeepClassification | dist/zuck.js:764-766 | later moves never change the classification, and a scroll never moves the slider |
| GestureLemmas.FirstMoveDecides | dist/zuck.js:764-766 | the classification is the one the first move made |
| GestureLemmas.ReleaseDecision | dist/zuck.js:782-796 | a committed non-scroll drag with a neighbour moves the story, any other horizontal drag snaps back, a scroll changes nothing |
| GestureLemmas.TouchEndIgnored | dist/zuck.js:779-780 | a release with no gesture listening, or after a reserved-band touch, changes nothing |
| GestureLemmas.SettleKeepsContent | dist/zuck.js:782-819 | up to the tap test, data, story, callbacks and every panel's items and roles are kept |
| GestureLemmas.ResumeEffect | dist/zuck.js:815-819 | replaying the viewer changes only its `paused` class among panel state, and no data, story, callback or gesture state |
| GestureLemmas.TouchEndWithoutTap | dist/zuck.js:821 | a release after the tap timer expired calls no callback |
| GestureLemmas.ResumeKeepsCalls | dist/zuck.js:815-819 | replaying the viewer calls no callback |
| GestureLemmas.TimerExpiryPreventsTap | dist/zuck.js:746-749 | the 250 ms timer firing ends the chance of a tap |
| GestureLemmas.TouchEndTapUnmutes | dist/zuck.js:833-837 | a tap on a muted viewer with a remembered video unmutes it and does not navigate |
| GestureLemmas.TouchEndUnmuteBranch | dist/zuck.js:833-837 | the unmute branch is the one taken on a muted viewer with a remembered video |
| GestureLemmas.UnmuteUnpauses | dist/zuck.js:1151-1164 | unmuting with the viewer plays the video and leaves the viewer unpaused |
| GestureLemmas.TouchEndTapNavigates | dist/zuck.js:825-844 | otherwise the tap navigates forward or backward by the screen-third rule; without a start offset it throws |
| InvariantLemmas.InitEstablishesInv | dist/zuck.js:1189-1191 | a new instance over a timeline of distinct stories with data satisfies `Inv` |
| InvariantLemmas.PlayKeepsInv | dist/zuck.js:1100-1139 | `playVideoItem` keeps `Inv` |
| InvariantLemmas.UnmuteKeepsInv | dist/zuck.js:1151-1164 | `unmuteVideoItem` keeps `Inv` |
| InvariantLemmas.TranslateKeepsInv | dist/zuck.js:121-141 | `translate` keeps `Inv` |
| InvariantLemmas.CreateViewerKeepsInv | dist/zuck.js:586-684 | `createStoryViewer` keeps `Inv`: the new panel matches the data and shares no story or element |
| InvariantLemmas.AttachKeepsInv | dist/zuck.js:679-683 | prepending or appending a matching, new panel keeps `Inv` |
| InvariantLemmas.MoveStoryKeepsInv | dist/zuck.js:496-533 | `moveStoryItem` keeps `Inv` |
| InvariantLemmas.RotateKeepsInv | dist/zuck.js:534-553 | the panel rotation keeps `Inv` |
| InvariantLemmas.FocusKeepsInv | dist/zuck.js:561-581 | the end of the timeout keeps `Inv`, `currentItem` following the active item |
| InvariantLemmas.CompleteKeepsInv | dist/zuck.js:533-583 | the whole timeout keeps `Inv` |
| InvariantLemmas.ShowNextKeepsInv | dist/zuck.js:890-926 | the end of `modal.show` keeps `Inv` |
| InvariantLemmas.ShowViewersKeepsInv | dist/zuck.js:883-894 | the panels of `modal.show` keep `Inv` |
| InvariantLemmas.ModalShowKeepsInv | dist/zuck.js:867-931 | `modal.show` keeps `Inv` |
| InvariantLemmas.MarkSeenKeepsInv | dist/zuck.js:934-943 | the seen bookkeeping keeps `Inv` |
| InvariantLemmas.ModalCloseKeepsInv | dist/zuck.js:956-976 | `modal.close` keeps `Inv` |
| InvariantLemmas.ModalNextKeepsInv | dist/zuck.js:932-955 | `modal.next` keeps `Inv` |
| InvariantLemmas.NavigateItemKeepsInv | dist/zuck.js:1309-1359 | `navigateItem` keeps `Inv` |
| InvariantLemmas.NavigateProceedKeepsInv | dist/zuck.js:1327-1351 | a `navigateItem` whose callback proceeds keeps `Inv` |
| InvariantLemmas.ProceedKeepsInv | dist/zuck.js:1328-1346 | the class changes and the `currentItem` step of `navigateItemCallback` keep every panel in agreement with the data |
| InvariantLemmas.TouchStartKeepsInv | dist/zuck.js:697-751 | `touchStart` keeps `Inv` |
| InvariantLemmas.TouchMoveKeepsInv | dist/zuck.js:753-773 | `touchMove` keeps `Inv` |
| InvariantLemmas.ResumeKeepsInv | dist/zuck.js:815-819 | replaying the viewer keeps `Inv` and the gesture closure |
| InvariantLemmas.SettleKeepsInv | dist/zuck.js:782-819 | `touchEnd` up to its tap test keeps `Inv` and leaves the released closure in place |
| InvariantLemmas.ReleaseKeepsInv | dist/zuck.js:782-796 | the release decision keeps `Inv` and the gesture closure |
| InvariantLemmas.TouchEndKeepsInv | dist/zuck.js:775-847 | `touchEnd` keeps `Inv` |
| InvariantLemmas.TapBranchKeepsInv | dist/zuck.js:825-844 | unmuting a muted viewer or navigating on a tap keeps `Inv` |
| InvariantLemmas.RetouchKeepsInv | dist/zuck.js:821-823 | consuming the tap timer of a live gesture keeps `Inv` |
| InvariantLemmas.NextTimerKeepsInv | dist/zuck.js:746-749 | the tap timer firing keeps `Inv` |
| Viewer.Zuck.constructor | dist/zuck.js:1189-1191 | the object starts in `Init`'s state and satisfies `Inv` over a timeline of distinct stories with data |
| Viewer.Zuck.GetLocalData | dist/zuck.js:1178-1185 | `getLocalData` returns what `Load` specifies and changes nothing |
| Viewer.Zuck.SaveLocalData | dist/zuck.js:1169-1176 | only the store changes, as `Save` says; a later load of the key returns the data; other keys load as before |
| Viewer.Zuck.PauseVideoItem | dist/zuck.js:1141-1149 | the new state is `Pause` of the old one |
| Viewer.Zuck.UnmuteVideoItem | dist/zuck.js:1151-1164 | the new state is `Unmute` of the old one |
| Viewer.Zuck.PlayVideoItem | dist/zuck.js:1100-1139 | the new state is `Play` of the old one |
| Viewer.Zuck.Translate | dist/zuck.js:121-141 | the new state is `Translate` of the old one |
| Viewer.Zuck.RenderItems | dist/zuck.js:603-618 | the loop over the items yields exactly the seen-marked items and their rendered views |
| Viewer.Zuck.CreateStoryViewer | dist/zuck.js:586-684 | the new state and the throw are those of `CreateViewer` |
| Viewer.Zuck.AttachPanel | dist/zuck.js:679-683 | the new state and the throw are those of `Attach` |
| Viewer.Zuck.MoveStoryItem | dist/zuck.js:496-533 | the new state is `MoveStory` of the old one; `Inv` and the single-media rule are kept |
| Viewer.Zuck.MoveStoryItemBody | dist/zuck.js:496-533 | the new state is `MoveStory` of the old one |
| Viewer.Zuck.RotatePanels | dist/zuck.js:534-553 | the new state is `Rotate` of the old one |
| Viewer.Zuck.DropPanel | dist/zuck.js:537-541 | the new state is the old one without the first panel in the useless role |
| Viewer.Zuck.RetirePanel | dist/zuck.js:543-547 | the captured viewing panel, if still attached, is stopped and takes the useless role |
| Viewer.Zuck.PromotePanel | dist/zuck.js:549-553 | the captured target panel, if still attached, is started and becomes viewing |
| Viewer.Zuck.FocusStory | dist/zuck.js:561-581 | the new state and the throw are those of `Focus` with the captured slider |
| Viewer.Zuck.ResetCaptured | dist/zuck.js:573 | the new state is `ResetSlider` of the old one |
| Viewer.Zuck.CompleteMove | dist/zuck.js:533-583 | the state and throw of `Complete`; `Inv` and the single-media rule are kept |
| Viewer.Zuck.CompleteMoveBody | dist/zuck.js:533-583 | the state and throw of `Complete` |
| Viewer.Zuck.ClearPanels | dist/zuck.js:871 | the new state is `ClearSlider` of the old one |
| Viewer.Zuck.ModalShow | dist/zuck.js:867-931 | the state and throw of `Navigation.ModalShow`; `Inv` and the single-media rule are kept |
| Viewer.Zuck.ModalShowBody | dist/zuck.js:867-931 | the state and throw of `Navigation.ModalShow` |
| Viewer.Zuck.OpenSliderBody | dist/zuck.js:871-874 | the new state is `OpenSlider` of the old one: old panels and their media gone, an empty slider at offset 0 |
| Viewer.Zuck.ShowStory | dist/zuck.js:883-894 | the state and throw of `ShowViewers` |
| Viewer.Zuck.ShowNextStory | dist/zuck.js:890-926 | the state and throw of `ShowNext` |
| Viewer.Zuck.MarkCurrentSeen | dist/zuck.js:934-943 | the state and throw of `MarkSeen`, the items rebuild included |
| Viewer.Zuck.ModalNext | dist/zuck.js:932-955 | the state and throw of `Navigation.ModalNext`; `Inv` and the single-media rule are kept |
| Viewer.Zuck.ModalNextBody | dist/zuck.js:932-955 | the state and throw of `Navigation.ModalNext` |
| Viewer.Zuck.ModalClose | dist/zuck.js:956-976 | the new state is `Navigation.ModalClose` of the old one; `Inv` and the single-media rule are kept |
| Viewer.Zuck.ModalCloseBody | dist/zuck.js:956-976 | the new state is `Navigation.ModalClose` of the old one |
| Viewer.Zuck.NavigateItem | dist/zuck.js:1309-1359 | the state and throw of `Navigation.NavigateItem`; `Inv` and the single-media rule are kept |
| Viewer.Zuck.NavigateItemBody | dist/zuck.js:1309-1359 | the state and throw of `Navigation.NavigateItem` |
| Viewer.Zuck.ProceedToItem | dist/zuck.js:1328-1346 | the re-flagged panel and the new `currentItem` are stored, then the target item plays, as `Play` of `Proceeded` |
| Viewer.Zuck.TouchStart | dist/zuck.js:697-751 | the state and throw of `Navigation.TouchStart`; `Inv` and the single-media rule are kept |
| Viewer.Zuck.TouchStartBody | dist/zuck.js:697-751 | the state and throw of `Navigation.TouchStart` |
| Viewer.Zuck.TouchMove | dist/zuck.js:753-773 | the new state is `Navigation.TouchMove` of the old one; `Inv` and the single-media rule are kept |
| Viewer.Zuck.TouchMoveBody | dist/zuck.js:753-773 | the new state is `Navigation.TouchMove` of the old one |
| Viewer.Zuck.ReleaseDrag | dist/zuck.js:782-796 | the new state is `Release` of the old one |
| Viewer.Zuck.ResumeViewer | dist/zuck.js:815-819 | the new state is `Resume` of the old one |
| Viewer.Zuck.SettleTouch | dist/zuck.js:782-819 | the new state is `Settle` of the old one; the returned video is the one current after the release |
| Viewer.Zuck.TouchEnd | dist/zuck.js:775-847 | the state and throw of `Navigation.TouchEnd`; `Inv` is kept, and so is the single-media rule when the remembered video is the replayed one |
| Viewer.Zuck.TouchEndBody | dist/zuck.js:775-847 | the state and throw of `Navigation.TouchEnd` |
| Viewer.Zuck.TapBranchBody | dist/zuck.js:825-844 | the state and throw of `Navigation.TapBranch` |
| Viewer.Zuck.NextTimerElapses | dist/zuck.js:746-749 | the new state is `Navigation.NextTimerElapses` of the old one; `Inv` and the single-media rule are kept |
| Viewer.Zuck.NextTimerElapsesBody | dist/zuck.js:746-749 | the new state is `Navigation.NextTimerElapses` of the old one |

## Left out

- `MediaLemmas.TouchEndKeepsSingleMedia`: states the single-media rule for `touchEnd` only when the video remembered at `dist/zuck.js:809` is the one the replay makes current (`VideoInFocus`), because without that condition the rule fails (`TouchEndCanBreakSingleMedia`).
- `Viewer.Zuck.TouchEnd`: keeps the single-media rule only under the same `VideoInFocus` condition, for the same reason.
- `InvariantLemmas.InitEstablishesInv` and `Viewer.Zuck.constructor`: require a timeline of distinct story ids that all have data. The library assumes this of the page and does not check it.
- `Timeline.SiblingRoundTrip`, `StoryLemmas.SiblingsApart`, `StoryLemmas.ModalShowBuildsViewer`, `StoryLemmas.ShowViewersEffect`, `GestureLemmas.TouchEndTapUnmutes` and the `StoryLemmas` lemmas with `DistinctUids`: require distinct timeline entries or distinct panel elements, which `Inv` provides in every reachable state.
- The `storyViewer.touchMove === 1` guard of `navigateItem` (line 1315): nothing in the library sets that property, so it is taken as never true.
- The second argument of the `onNavigateItem` callback and the `onNextItem` fallback name: only the story id is logged.
- `zuck.sendViewItemUpdate` and `onUserViewComplete`: treated as having no effect on the modelled state.
- `bindUserClickEvents` and the `.user-input` click handlers: DOM listener plumbing, left out.
- `timeAgo`, the HTML templates and the `<b>` duration styles: formatting, left out.
- Full screen, `backNative`/`location.hash`, `autoFullScreen` and `openEffect`: layout-only, left out. With `openEffect`, `modal.close` is taken to empty the content as it does without it.
- The 600 ms long-press timer and the `longPress` class: cosmetic, left out.
- Media events: `onwaiting`, `onplay`, `oncanplay`, `loadedmetadata` and the `loading` class are left out. `volumechange` is taken to fire synchronously, so `muted` follows the video.
- The muted-autoplay fallback of `unmuteVideoItem` (lines 1157-1160): the video is taken to play once unmuted.
- `onAnimationEnd` registrations (the automatic advance when an item's progress bar ends): the advance is modelled as a `navigateItem(next)` call the environment makes.
- `updateStorySeenPosition` calling `zuck.update(newData, true)`: its effect on the timeline order (seen stories to the end unless `reactive`) and on the stories' items (rebuilt without `seen` unless `reactive`) is modelled. The other item fields `parseItems` reads back, the `onDataUpdate` callback, and `parseStory` re-reading a story's `seen` from `seenItems` (which `modal.next` keeps equal) are left out.
- The timeline elements' `.seen` class: the model uses the `seen` flag of the story data, which `modal.next` sets together with the class.
- Properties of primitive JavaScript values (a string's `length` or index properties): they read as undefined in `Js.Prop`.
- Fractional numbers: pixel offsets, widths and times are integers. The cube angle and the thresholds are also proved equal to their real-number forms.
- The cube effect's `scale(...)` styling of the modal content (lines 126-127): cosmetic, left out.
- A callback that calls its `callback` later or more than once: hooks either proceed synchronously or do not.
- `zuck.add`, `zuck.update`, `zuck.remove`, `zuck.addItem`, `zuck.removeItem`, `zuck.stopItem`, `zuck.startItem` and the initial parsing of the timeline markup: outside the viewer core. The model starts from the parsed `zuck.data`, the timeline order and the store.
- A `currentStory` holding the string `"undefined"`: the current story is `None` until `modal.show` sets it.
- The `unmute` argument of `modal.next`: `moveStoryItem` ignores it.
- The keyboard handlers and the modal's click handlers: left out.
