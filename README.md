# Scene portfolio: a verified model of its UI state machines

The portfolio site walks a visitor through six full-screen scenes (INTRO,
ABOUTME, CORE, PROOF, TOOLS, RESOLUTION) on one of two tracks (DESIGN or
LOGIC). A custom "ghost cursor" follows the pointer. It pulses when the
pointer rests and grows over buttons and links. Components write a short
label next to it through a shared single-slot channel. This project models
the small state machines behind that behaviour in Dafny and proves what they
promise:

- `SceneController`: the scene navigator. It holds the current scene, the
  transition direction and the active track. It models the forward
  callbacks, `reset`, `handleBack`, the Escape/Backspace key guard and two
  timed effects. The scroll lock is released 1200 ms after the latest scene
  change. A whoosh cue goes to the sound player on every change to a scene
  other than INTRO.
- `GhostCursor`: the idle/hover controller. It holds the `isIdle` flag, one
  pending idle timer (500 ms debounce), the dot's target scale and opacity,
  and the dot and label positions. It also holds the hover classification
  and the label-opacity rule.
- `CursorContext`: the label channel (`string | null`, last write wins). It
  covers the provider check and the mount/unmount lifecycle of
  `useCursorText`.
- `Methodology`: the accordion toggle, the per-track step tables, the
  scheduled scroll-into-view and the enter/leave label writes.
- `ScrollHint`: the hint's visibility against the 50 px threshold.
- `ProofScene`: which list is shown for a track, the selected-project
  lookup, card click and close, the auto-scroll guard, the overflow rule
  for the scroll hint, and the grid classes.
- `Projects`: the two constant project tables.

Time is an integer millisecond clock. Each class with a timer keeps `now`
and the deadline of its one pending timer. A method that handles an event
at time `t` first advances the clock, which fires any timer due at or
before `t`. Each tween of the animation library becomes an assignment of
its target value. Sound playback, scrolling the window and body styles are
recorded as state: a log of cues, a list of scheduled scrolls, a lock flag.

Behaviours of the code that the model keeps and proves:

- Hover-in re-arms the idle timer like any other pointer event. A pointer
  resting on a button therefore goes idle 500 ms later, and the pulse takes
  over the scale while the opacity stays at 0.5. There is no hover mode that
  holds the enlarged scale. See `GhostCursor.RestingOnButtonScenario`.
- `reset` goes to INTRO with direction +1, not -1. No change to INTRO plays
  the whoosh cue, whether it is the first render or a reset.
- The scene effects are keyed on the scene value and run only when it
  changes. A `changeScene` to the scene already shown updates only the
  direction. It plays no cue and keeps the pending unlock timer.
- The methodology section clears its label with `""`, not `null`. The
  label-opacity rule hides the label for both.
- Two clicks on the same step restore the earlier state only when no step,
  or that same step, was open before. If another step was open, the two
  clicks leave every step closed. `Methodology.DoubleClick` states the exact
  rule.

## Model

| member | source | states |
|---|---|---|
| `Projects.LogicProjects` | src/data/projects.tsx:14-60 | the LOGIC table has exactly five records with pairwise distinct ids |
| `Projects.DesignProjects` | src/data/projects.tsx:62-108 | the DESIGN table has exactly five records with pairwise distinct ids |
| `Projects.TablesDisjoint` | src/data/projects.tsx:14-108 | no id occurs in both tables |
| `Projects.SamuraiAndAssassinAreLogicOnly` | src/data/projects.tsx:16-25 | 'samurai' and 'assassin' are ids of the LOGIC table and of no DESIGN record |
| `CursorContext.CursorChannel.constructor` | src/context/CursorContext.tsx:11-12 | the slot starts as null |
| `CursorContext.CursorChannel.SetCursorText` | src/context/CursorContext.tsx:12-15 | a write replaces the slot, whatever it held (last writer wins, no stacking) |
| `CursorContext.UseCursor` | src/context/CursorContext.tsx:21-27 | outside a provider the lookup fails with the provider error; inside one it yields that provider |
| `CursorContext.CursorTextHook.Mount` | src/context/CursorContext.tsx:30-35 | after mount the slot holds the hook's text |
| `CursorContext.CursorTextHook.Unmount` | src/context/CursorContext.tsx:30-35 | after unmount the slot is null, even if another writer overwrote it |
| `CursorContext.CursorTextHook.Rerender` | src/context/CursorContext.tsx:30-35 | a changed argument clears the slot and then writes the new text, so the slot ends with the new text; an unchanged argument leaves the slot alone |
| `CursorContext.ClobberScenario` | src/context/CursorContext.tsx:30-35 | mount gives "Click to Enter"; a hover write gives "Close"; the intro's unmount then clears the hover label too |
| `SceneController.SceneOrder` | src/components/SceneController.tsx:13-14 | six scenes, INTRO first and RESOLUTION last, none repeated |
| `SceneController.EverySceneListed` | src/components/SceneController.tsx:13-14 | the order is total: every scene value is in it |
| `SceneController.IndexOf` | src/components/SceneController.tsx:23 | `indexOf` gives -1 exactly when the value is absent, and otherwise the first position holding it |
| `SceneController.SceneIndex` | src/components/SceneController.tsx:23 | every scene has an index in the order, at which it stands |
| `SceneController.BackTargetSpec` | src/components/SceneController.tsx:59-64 | back has no target exactly at INTRO; otherwise its target is one position lower |
| `SceneController.ForwardIsSuccessor` | src/components/SceneController.tsx:52-137 | each scene's forward callback moves to its successor in the order; RESOLUTION has none, only reset |
| `SceneController.BackUndoesForward` | src/components/SceneController.tsx:52-64 | forward then back returns to the starting scene |
| `SceneController.BackStepsIndex` | src/components/SceneController.tsx:59-64 | n back actions lower the index by n, stopping at INTRO; the index never rises |
| `SceneController.Navigator.constructor` | src/components/SceneController.tsx:17-44 | start at INTRO, direction 0, track DESIGN; scroll locked with the unlock due 1200 ms later; no cue |
| `SceneController.Navigator.Tick` | src/components/SceneController.tsx:36-41 | after the clock advances, the scroll is locked exactly while less than 1200 ms have passed since the last scene change |
| `SceneController.Navigator.ChangeScene` | src/components/SceneController.tsx:25-50 | sets scene and direction and keeps the track; when the scene changes it re-locks scroll with a new 1200 ms timer in place of the pending one, and adds a cue iff the new scene is not INTRO |
| `SceneController.Navigator.GoToAboutMe` | src/components/SceneController.tsx:52 | ABOUTME with direction 1; from another scene a cue and a fresh lock, from ABOUTME itself no cue and the pending lock kept |
| `SceneController.Navigator.GoToCore` | src/components/SceneController.tsx:53 | CORE with direction 1; from another scene a cue and a fresh lock, from CORE itself no cue and the pending lock kept |
| `SceneController.Navigator.GoToProof` | src/components/SceneController.tsx:54 | PROOF with direction 1; from another scene a cue and a fresh lock, from PROOF itself no cue and the pending lock kept |
| `SceneController.Navigator.GoToTools` | src/components/SceneController.tsx:55 | TOOLS with direction 1; from another scene a cue and a fresh lock, from TOOLS itself no cue and the pending lock kept |
| `SceneController.Navigator.GoToResolution` | src/components/SceneController.tsx:56 | RESOLUTION with direction 1; from another scene a cue and a fresh lock, from RESOLUTION itself no cue and the pending lock kept |
| `SceneController.Navigator.Reset` | src/components/SceneController.tsx:57 | INTRO with direction +1 and never a cue; a fresh lock unless INTRO was already shown, in which case the pending lock is kept |
| `SceneController.Navigator.HandleBack` | src/components/SceneController.tsx:59-64 | at INTRO scene, direction, cues and the lock are unchanged; elsewhere it moves to the previous scene in the order with direction -1, re-locks, and sends a cue iff the new scene is not INTRO |
| `SceneController.Navigator.KeyDown` | src/components/SceneController.tsx:67-76 | Escape or Backspace past INTRO does exactly what back does (previous scene, direction -1, re-lock, cue iff not INTRO); any other key, or any key at INTRO, leaves scene, direction, cues and lock unchanged |
| `SceneController.Navigator.SetActiveTrack` | src/components/SceneController.tsx:19 | the track callback replaces the active track |
| `SceneController.ForwardForwardBackScenario` | src/components/SceneController.tsx:52-64 | INTRO, then ABOUTME, then CORE, then back ends at ABOUTME with direction -1, after cues ABOUTME, CORE, ABOUTME |
| `SceneController.EscapeScenario` | src/components/SceneController.tsx:67-72 | Escape at PROOF gives CORE with direction -1; Escape at INTRO changes nothing |
| `SceneController.ScrollLockScenario` | src/components/SceneController.tsx:30-44 | after a change the scroll is locked at +0 ms and +1199 ms and unlocked at +1201 ms |
| `GhostCursor.Lower` | src/components/GhostCursor.tsx:88 | lower-casing keeps the length and maps each character (ASCII letters only) |
| `GhostCursor.InteractiveIffButtonOrLinkOnPath` | src/components/GhostCursor.tsx:88 | a hover target is interactive iff it or an ancestor is a `button` or an `a`, in any letter case |
| `GhostCursor.LabelOpacity` | src/components/GhostCursor.tsx:145 | the label's opacity is 1 iff the channel text is non-null and non-empty, and 0 otherwise |
| `GhostCursor.Cursor.constructor` | src/components/GhostCursor.tsx:7-17 | before mount nothing renders and nothing is listening, idle or pending |
| `GhostCursor.Cursor.StartIdleAnimation` | src/components/GhostCursor.tsx:30-41 | enters idle with the pulse scale; a no-op when already idle |
| `GhostCursor.Cursor.StopIdleAnimation` | src/components/GhostCursor.tsx:43-53 | leaves idle with the rest scale; a no-op when not idle |
| `GhostCursor.Cursor.ResetIdleTimer` | src/components/GhostCursor.tsx:55-59 | ends any pulse and replaces the single pending timer with one due 500 ms from now |
| `GhostCursor.Cursor.AdvanceTo` | src/components/GhostCursor.tsx:58 | while listening, idle holds exactly once 500 ms have passed since the last move or hover event; only the timer's firing enters idle |
| `GhostCursor.Cursor.Mount` | src/components/GhostCursor.tsx:16-115 | the first mount sets rest scale and opacity, not idle, listeners on, and arms the first idle timer; a repeated mount runs no setup and keeps positions, opacity and the timer |
| `GhostCursor.Cursor.Teardown` | src/components/GhostCursor.tsx:117-122 | cleanup removes the listeners and leaves no timer pending; it changes nothing else, so a running pulse is not stopped |
| `GhostCursor.Cursor.MoveCursor` | src/components/GhostCursor.tsx:61-83 | a move ends idle (scale back to 1 if it was pulsing), re-arms the timer, and sets the dot and label targets to the new coordinates |
| `GhostCursor.Cursor.HandleHoverStart` | src/components/GhostCursor.tsx:85-97 | hover-in ends idle and re-arms the timer; only an interactive target sets scale 4 and opacity 0.5 |
| `GhostCursor.Cursor.HandleHoverEnd` | src/components/GhostCursor.tsx:99-108 | hover-out restores scale 1 and opacity 1 whatever the target, and re-arms the timer |
| `GhostCursor.IdleTimelineScenario` | src/components/GhostCursor.tsx:55-59 | moves at 0 and 400 ms: not idle at 899, idle at 900 |
| `GhostCursor.RestingOnButtonScenario` | src/components/GhostCursor.tsx:85-97 | over a BUTTON the scale is 4; 500 ms later the cursor is idle with the pulse scale and still faded to 0.5 |
| `Methodology.Steps` | src/components/MethodologySection.tsx:36-153 | each track's table has exactly three steps (the same count on both tracks), all titled |
| `Methodology.Toggled` | src/components/MethodologySection.tsx:19 | the new step is null exactly when the clicked index was open, and otherwise it is the clicked index |
| `Methodology.DoubleClick` | src/components/MethodologySection.tsx:19 | two clicks on one index leave it open if it was open and close all otherwise; they restore the prior state iff it was null or that index |
| `Methodology.Accordion.constructor` | src/components/MethodologySection.tsx:13 | no step is open initially and no scroll is scheduled |
| `Methodology.Accordion.HandleStepClick` | src/components/MethodologySection.tsx:17-34 | applies the toggle and schedules a scroll-into-view only when a step is now open |
| `Methodology.Accordion.DetailTitle` | src/components/MethodologySection.tsx:228-247 | the detail panel shows exactly when a step is open, and its title is a step title of whichever track is active |
| `Methodology.OnMouseEnter` | src/components/MethodologySection.tsx:162 | entering the section sets the label to "VIEW DETAILS" |
| `Methodology.OnMouseLeave` | src/components/MethodologySection.tsx:163 | leaving the section sets the label to "" |
| `ScrollHint.HintOpacity` | src/components/ScrollHint.tsx:21 | opacity 1 iff visible, 0 otherwise |
| `ScrollHint.Hint.constructor` | src/components/ScrollHint.tsx:7 | the hint starts visible |
| `ScrollHint.Hint.OnScrollChange` | src/components/ScrollHint.tsx:9-15 | afterwards, visible iff the offset is at most 50 (50 itself counts as visible); the state is written only when it flips |
| `ProofScene.ProjectsFor` | src/components/scenes/ProofScene.tsx:31 | LOGIC shows the LOGIC table and every other track the DESIGN table; five cards with distinct ids |
| `ProofScene.Find` | src/components/scenes/ProofScene.tsx:32 | `find` gives nothing iff no id matches (always so for a null selection), and otherwise the first matching project |
| `ProofScene.FindByOwnId` | src/components/scenes/ProofScene.tsx:32 | in a list with distinct ids, looking up a card's own id yields that card |
| `ProofScene.SelectionDoesNotCrossTracks` | src/components/scenes/ProofScene.tsx:31-32 | an id selected on one track finds nothing on the other, so a track switch shows the placeholder |
| `ProofScene.ExactlyClickedCardSelected` | src/components/scenes/ProofScene.tsx:174 | after selecting card k, a card is marked selected iff it is card k |
| `ProofScene.GridClass` | src/components/scenes/ProofScene.tsx:163-165 | every class starts with `md:col-span-2`; index 3 adds `md:col-start-2`, index 4 adds `md:col-start-4 lg:col-start-4`, and other indices add nothing |
| `ProofScene.ShowsScrollHint` | src/components/scenes/ProofScene.tsx:47-53 | the hint shows iff the page is more than 10 px taller than the viewport |
| `ProofScene.Selection.constructor` | src/components/scenes/ProofScene.tsx:26-27 | no selection and no hint initially |
| `ProofScene.Selection.SelectedProject` | src/components/scenes/ProofScene.tsx:32 | the shown project is in the track's list and carries the selected id; it is absent iff the selection is null or not in that list |
| `ProofScene.Selection.CardClick` | src/components/scenes/ProofScene.tsx:35-43 | a card click (line 172) selects its id; the auto-scroll runs only when the selection changed to a non-empty id |
| `ProofScene.Selection.Close` | src/components/scenes/ProofScene.tsx:190 | close resets the selection to null and starts no scroll |
| `ProofScene.Selection.CheckScroll` | src/components/scenes/ProofScene.tsx:47-53 | sets the hint flag by the overflow rule |
| `ProofScene.ClickThenSwitchScenario` | src/components/scenes/ProofScene.tsx:31-32 | clicking card k shows that project; after a track switch the placeholder shows |

## Left out

- Animation mechanics are not modelled: easing curves, durations, yoyo repetition and the `overwrite` internals of the tweening and motion libraries. Each tween is the assignment of its target value, and the idle pulse is `isIdle` plus the pulse target scale.
- The dot's and label's percentage offsets (`xPercent`/`yPercent`) are not modelled. They are constant presentation.
- Floating-point geometry is not modelled: the project-card tilt, the magnetic button offset in the resolution scene and the performance-duel circumference. They are float numerics with no discrete contract.
- Browser I/O is not modelled. `window.scrollTo` is absent. The body-style writes are reduced to the `scrollLocked` flag. Smooth scrolls are reduced to logs of scheduled scrolls. The clipboard write and HTML5 audio playback are absent; audio becomes the `whooshes` log of cues sent to the sound collaborator.
- React scheduling is not modelled: rendering, hook and effect scheduling, and listener registration. Effects are explicit steps inside the event methods. Their dependency semantics are kept: an effect re-runs only when its key value changes.
- Pure markup components are not modelled. Their only logic is label enter/leave writes, which `CursorContext.CursorChannel.SetCursorText` covers. These are the case-study displays, the project overlay, the navigation controls, the track toggle, the intro, about, core and tools scenes, the performance duel and the layout.
- The project overlay's comparison-key increment is not modelled. It is unreachable, because its `showComparison` flag is never set.
- The resolution scene's 2-second "Email Copied" flag is not modelled. It is a timer around a clipboard side effect.
- The icon field is included but the optional expanded-view `content` field of a project is not. Neither table sets it.
- The Proof scene's schedule for `checkScroll` is not modelled: it runs on mount, on resize, 1 s later, and again on track or selection change. `ProofScene.Selection.CheckScroll` is the rule applied to whatever heights the caller passes.
- `Methodology.Accordion.HandleStepClick` accepts only the indices 0 to 2. Those are the three cards the section renders, and the source's handler is only ever called with them. The 100 ms delay and the null-ref check before the scroll are reduced to an entry in `scheduledScrolls`.
- `GhostCursor.Lower` lower-cases ASCII letters only. HTML tag names are ASCII, so the classification is unaffected.
- `CursorContext.CursorTextHook.Mount`, `Unmount` and `Rerender` require the hook to be unmounted or mounted as React's lifecycle guarantees. They are not called out of order.
- Scroll offsets are exact reals and pixel heights are integers, not IEEE doubles.
