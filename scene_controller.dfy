/** The scene navigator: which full-screen scene is shown, the direction of the
    last transition, the active track, and the two timed side effects of a
    scene change (the scroll lock and the whoosh cue), on a millisecond clock. */
module SceneController {
  import opened Wrappers
  import opened Tracks

  datatype Scene = INTRO | ABOUTME | CORE | PROOF | TOOLS | RESOLUTION

  /** How long the page scroll stays locked after a scene change, in ms. */
  const SCROLL_SETTLE: int := 1200

  /** The canonical scene order. */
  function SceneOrder(): (order: seq<Scene>)
    ensures |order| == 6 && order[0] == INTRO && order[5] == RESOLUTION
    ensures forall i, j :: 0 <= i < j < |order| ==> order[i] != order[j]
  {
    [INTRO, ABOUTME, CORE, PROOF, TOOLS, RESOLUTION]
  }

  /** `xs.indexOf(x)`: the first position holding `x`, or -1. */
  function IndexOf(xs: seq<Scene>, x: Scene): (i: int)
    ensures -1 <= i < |xs|
    ensures i == -1 <==> x !in xs
    ensures 0 <= i ==> xs[i] == x && x !in xs[..i]
  {
    if |xs| == 0 then -1
    else if xs[0] == x then 0
    else
      var j := IndexOf(xs[1..], x);
      if j == -1 then -1
      else
        assert xs[..j + 1] == [xs[0]] + xs[1..][..j];
        j + 1
  }

  /** The order is total: every scene appears in it. */
  lemma EverySceneListed(s: Scene)
    ensures s in SceneOrder()
  {
    match s
    case INTRO => assert SceneOrder()[0] == s;
    case ABOUTME => assert SceneOrder()[1] == s;
    case CORE => assert SceneOrder()[2] == s;
    case PROOF => assert SceneOrder()[3] == s;
    case TOOLS => assert SceneOrder()[4] == s;
    case RESOLUTION => assert SceneOrder()[5] == s;
  }

  /** The position of `s` in the scene order; every scene has one. */
  function SceneIndex(s: Scene): (i: nat)
    ensures i < |SceneOrder()| && SceneOrder()[i] == s
  {
    EverySceneListed(s);
    IndexOf(SceneOrder(), s)
  }

  /** The scene `handleBack` moves to from `s`, or None where it does nothing. */
  function BackTarget(s: Scene): (r: Option<Scene>)
  {
    var i := SceneIndex(s);
    if i > 0 then Some(SceneOrder()[i - 1]) else None
  }

  /** The forward callback each scene is wired with: the intro's enter action
      and the `onNext` of the four middle scenes. The resolution scene has only
      `reset`. */
  function ForwardTarget(s: Scene): (r: Option<Scene>)
  {
    match s
    case INTRO => Some(ABOUTME)
    case ABOUTME => Some(CORE)
    case CORE => Some(PROOF)
    case PROOF => Some(TOOLS)
    case TOOLS => Some(RESOLUTION)
    case RESOLUTION => None
  }

  /** Back does nothing exactly at the first scene, and otherwise moves one
      position down the order. */
  lemma BackTargetSpec(s: Scene)
    ensures BackTarget(s).None? <==> s == INTRO
    ensures BackTarget(s).Some? ==> SceneIndex(BackTarget(s).value) == SceneIndex(s) - 1
  {
    if s != INTRO {
      assert SceneOrder()[0] == INTRO;
      var p := BackTarget(s).value;
      assert SceneOrder()[SceneIndex(p)] == SceneOrder()[SceneIndex(s) - 1];
    }
  }

  /** Every forward callback moves to the successor in the scene order. */
  lemma ForwardIsSuccessor(s: Scene)
    ensures ForwardTarget(s).None? <==> s == RESOLUTION
    ensures ForwardTarget(s).Some? ==> SceneIndex(ForwardTarget(s).value) == SceneIndex(s) + 1
  {
  }

  /** Going forward and then back returns to the starting scene. */
  lemma BackUndoesForward(s: Scene)
    requires ForwardTarget(s).Some?
    ensures BackTarget(ForwardTarget(s).value) == Some(s)
  {
    ForwardIsSuccessor(s);
    BackTargetSpec(ForwardTarget(s).value);
    var p := BackTarget(ForwardTarget(s).value).value;
    assert SceneOrder()[SceneIndex(p)] == SceneOrder()[SceneIndex(s)];
  }

  /** The scene reached by `n` successive back actions from `s`. */
  function BackSteps(s: Scene, n: nat): Scene
    decreases n
  {
    if n == 0 then s
    else match BackTarget(s)
      case None => s
      case Some(p) => BackSteps(p, n - 1)
  }

  /** Repeated back actions only ever lower the index, one step at a time,
      and stop at the first scene. */
  lemma {:induction false} BackStepsIndex(s: Scene, n: nat)
    ensures SceneIndex(BackSteps(s, n)) == if n <= SceneIndex(s) then SceneIndex(s) - n else 0
    decreases n
  {
    BackTargetSpec(s);
    if n > 0 && s != INTRO {
      var p := BackTarget(s).value;
      assert BackSteps(s, n) == BackSteps(p, n - 1);
      BackStepsIndex(p, n - 1);
    }
  }

  /** The navigator's state cells and the timers and cues their changes cause. */
  class Navigator {
    var currentScene: Scene
    var direction: int
    var activeTrack: Track
    /** The model clock, in ms. */
    var now: int
    /** Whether the page body is in its locked (hidden overflow) style. */
    var scrollLocked: bool
    /** Deadline of the pending unlock timer, if one is armed. */
    var unlockTimer: Option<int>
    /** The scenes for which a whoosh cue was sent to the sound collaborator, in order. */
    var whooshes: seq<Scene>
    /** When the scroll effect last ran, that is when the scene last changed. */
    ghost var lastChange: int

    /** The lock is held exactly while the settle window of the last change is open. */
    ghost predicate Valid()
      reads this
    {
      (scrollLocked <==> unlockTimer.Some?) &&
      (scrollLocked ==> unlockTimer == Some(lastChange + SCROLL_SETTLE) && now < lastChange + SCROLL_SETTLE) &&
      (!scrollLocked ==> lastChange + SCROLL_SETTLE <= now)
    }

    /** First render at time `t`: the intro scene, no direction, the DESIGN
        track; the scroll effect locks and arms its timer; no cue for INTRO. */
    constructor (t: int)
      ensures Valid()
      ensures currentScene == INTRO && direction == 0 && activeTrack == DESIGN
      ensures now == t && scrollLocked && unlockTimer == Some(t + SCROLL_SETTLE) && lastChange == t
      ensures whooshes == []
    {
      currentScene := INTRO;
      direction := 0;
      activeTrack := DESIGN;
      now := t;
      scrollLocked := true;
      unlockTimer := Some(t + SCROLL_SETTLE);
      whooshes := [];
      lastChange := t;
    }

    /** The clock reaches `t`; a due unlock timer fires on the way. */
    method Tick(t: int)
      requires Valid() && now <= t
      modifies this
      ensures Valid() && now == t
      ensures scrollLocked <==> t < lastChange + SCROLL_SETTLE
      ensures currentScene == old(currentScene) && direction == old(direction)
      ensures activeTrack == old(activeTrack) && whooshes == old(whooshes)
      ensures lastChange == old(lastChange)
    {
      if unlockTimer.Some? && unlockTimer.value <= t {
        scrollLocked := false;
        unlockTimer := None;
      }
      now := t;
    }

    /** `changeScene(scene, dir)` at time `t`. The direction is always stored;
        the scene effects run only when the scene value actually changes: a cue
        for any scene but INTRO, and a fresh lock whose timer replaces the
        pending one. */
    method ChangeScene(scene: Scene, dir: int, t: int)
      requires Valid() && now <= t
      modifies this
      ensures Valid() && now == t
      ensures currentScene == scene && direction == dir && activeTrack == old(activeTrack)
      ensures whooshes == old(whooshes) + (if scene != old(currentScene) && scene != INTRO then [scene] else [])
      ensures scene != old(currentScene) ==>
                scrollLocked && unlockTimer == Some(t + SCROLL_SETTLE) && lastChange == t
      ensures scene == old(currentScene) ==>
                lastChange == old(lastChange) && (scrollLocked <==> t < old(lastChange) + SCROLL_SETTLE)
    {
      Tick(t);
      direction := dir;
      if scene != currentScene {
        currentScene := scene;
        if scene != INTRO {
          whooshes := whooshes + [scene];
        }
        scrollLocked := true;
        unlockTimer := Some(t + SCROLL_SETTLE);
        lastChange := t;
      }
    }

    method GoToAboutMe(t: int)
      requires Valid() && now <= t
      modifies this
      ensures Valid() && now == t
      ensures currentScene == ABOUTME && direction == 1 && activeTrack == old(activeTrack)
      ensures old(currentScene) != ABOUTME ==> whooshes == old(whooshes) + [ABOUTME] && scrollLocked && lastChange == t
      ensures old(currentScene) == ABOUTME ==>
                whooshes == old(whooshes) && lastChange == old(lastChange) &&
                (scrollLocked <==> t < old(lastChange) + SCROLL_SETTLE)
    {
      ChangeScene(ABOUTME, 1, t);
    }

    method GoToCore(t: int)
      requires Valid() && now <= t
      modifies this
      ensures Valid() && now == t
      ensures currentScene == CORE && direction == 1 && activeTrack == old(activeTrack)
      ensures old(currentScene) != CORE ==> whooshes == old(whooshes) + [CORE] && scrollLocked && lastChange == t
      ensures old(currentScene) == CORE ==>
                whooshes == old(whooshes) && lastChange == old(lastChange) &&
                (scrollLocked <==> t < old(lastChange) + SCROLL_SETTLE)
    {
      ChangeScene(CORE, 1, t);
    }

    method GoToProof(t: int)
      requires Valid() && now <= t
      modifies this
      ensures Valid() && now == t
      ensures currentScene == PROOF && direction == 1 && activeTrack == old(activeTrack)
      ensures old(currentScene) != PROOF ==> whooshes == old(whooshes) + [PROOF] && scrollLocked && lastChange == t
      ensures old(currentScene) == PROOF ==>
                whooshes == old(whooshes) && lastChange == old(lastChange) &&
                (scrollLocked <==> t < old(lastChange) + SCROLL_SETTLE)
    {
      ChangeScene(PROOF, 1, t);
    }

    method GoToTools(t: int)
      requires Valid() && now <= t
      modifies this
      ensures Valid() && now == t
      ensures currentScene == TOOLS && direction == 1 && activeTrack == old(activeTrack)
      ensures old(currentScene) != TOOLS ==> whooshes == old(whooshes) + [TOOLS] && scrollLocked && lastChange == t
      ensures old(currentScene) == TOOLS ==>
                whooshes == old(whooshes) && lastChange == old(lastChange) &&
                (scrollLocked <==> t < old(lastChange) + SCROLL_SETTLE)
    {
      ChangeScene(TOOLS, 1, t);
    }

    method GoToResolution(t: int)
      requires Valid() && now <= t
      modifies this
      ensures Valid() && now == t
      ensures currentScene == RESOLUTION && direction == 1 && activeTrack == old(activeTrack)
      ensures old(currentScene) != RESOLUTION ==> whooshes == old(whooshes) + [RESOLUTION] && scrollLocked && lastChange == t
      ensures old(currentScene) == RESOLUTION ==>
                whooshes == old(whooshes) && lastChange == old(lastChange) &&
                (scrollLocked <==> t < old(lastChange) + SCROLL_SETTLE)
    {
      ChangeScene(RESOLUTION, 1, t);
    }

    /** Back to the intro, tagged as a FORWARD transition; INTRO sends no cue. */
    method Reset(t: int)
      requires Valid() && now <= t
      modifies this
      ensures Valid() && now == t
      ensures currentScene == INTRO && direction == 1 && activeTrack == old(activeTrack)
      ensures whooshes == old(whooshes)
      ensures old(currentScene) != INTRO ==> scrollLocked && lastChange == t
      ensures old(currentScene) == INTRO ==>
                lastChange == old(lastChange) && (scrollLocked <==> t < old(lastChange) + SCROLL_SETTLE)
    {
      ChangeScene(INTRO, 1, t);
    }

    /** `handleBack`: one step down the scene order with direction -1, or
        nothing at the first scene. */
    method HandleBack(t: int)
      requires Valid() && now <= t
      modifies this
      ensures Valid() && now == t && activeTrack == old(activeTrack)
      ensures old(currentScene) == INTRO ==>
                currentScene == INTRO && direction == old(direction) && whooshes == old(whooshes) &&
                lastChange == old(lastChange) && (scrollLocked <==> t < old(lastChange) + SCROLL_SETTLE)
      ensures old(currentScene) != INTRO ==>
                Some(currentScene) == BackTarget(old(currentScene)) && direction == -1 &&
                SceneIndex(currentScene) == SceneIndex(old(currentScene)) - 1 &&
                scrollLocked && lastChange == t
      ensures old(currentScene) != INTRO && currentScene != INTRO ==> whooshes == old(whooshes) + [currentScene]
      ensures currentScene == INTRO ==> whooshes == old(whooshes)
    {
      BackTargetSpec(currentScene);
      var sceneIndex := IndexOf(SceneOrder(), currentScene);
      if sceneIndex > 0 {
        ChangeScene(SceneOrder()[sceneIndex - 1], -1, t);
      } else {
        Tick(t);
      }
    }

    /** The window keydown listener: back only for Escape or Backspace and only
        past the first scene; any other key or position changes nothing. */
    method KeyDown(key: string, t: int)
      requires Valid() && now <= t
      modifies this
      ensures Valid() && now == t && activeTrack == old(activeTrack)
      ensures (key == "Escape" || key == "Backspace") && old(currentScene) != INTRO ==>
                Some(currentScene) == BackTarget(old(currentScene)) && direction == -1 &&
                SceneIndex(currentScene) == SceneIndex(old(currentScene)) - 1 &&
                scrollLocked && lastChange == t &&
                whooshes == old(whooshes) + (if currentScene != INTRO then [currentScene] else [])
      ensures !(key == "Escape" || key == "Backspace") || old(currentScene) == INTRO ==>
                currentScene == old(currentScene) && direction == old(direction) &&
                whooshes == old(whooshes) && lastChange == old(lastChange) &&
                (scrollLocked <==> t < old(lastChange) + SCROLL_SETTLE)
    {
      var sceneIndex := IndexOf(SceneOrder(), currentScene);
      if sceneIndex > 0 && (key == "Escape" || key == "Backspace") {
        HandleBack(t);
      } else {
        Tick(t);
      }
    }

    /** The `onTrackChange` callback handed to the middle scenes. */
    method SetActiveTrack(track: Track)
      modifies this`activeTrack
      ensures activeTrack == track
    {
      activeTrack := track;
    }
  }

  /** Start, forward to ABOUTME, forward to CORE, back: ABOUTME with direction -1. */
  method ForwardForwardBackScenario() returns (scene: Scene, dir: int, cues: seq<Scene>)
    ensures scene == ABOUTME && dir == -1
    ensures cues == [ABOUTME, CORE, ABOUTME]
  {
    var nav := new Navigator(0);
    nav.GoToAboutMe(100);
    nav.GoToCore(200);
    nav.HandleBack(300);
    scene, dir, cues := nav.currentScene, nav.direction, nav.whooshes;
  }

  /** Escape on PROOF goes back to CORE; Escape on INTRO changes nothing. */
  method EscapeScenario() returns (fromProof: Scene, fromProofDir: int, fromIntro: Scene, fromIntroDir: int)
    ensures fromProof == CORE && fromProofDir == -1
    ensures fromIntro == INTRO && fromIntroDir == 0
  {
    var nav := new Navigator(0);
    nav.KeyDown("Escape", 10);
    fromIntro, fromIntroDir := nav.currentScene, nav.direction;
    nav.GoToAboutMe(20);
    nav.GoToCore(30);
    nav.GoToProof(40);
    nav.KeyDown("Escape", 50);
    fromProof, fromProofDir := nav.currentScene, nav.direction;
  }

  /** A change at t = 5000 holds the lock at 5000 and 6199 and has released it by 6201. */
  method ScrollLockScenario() returns (atChange: bool, at1199: bool, at1201: bool)
    ensures atChange && at1199 && !at1201
  {
    var nav := new Navigator(0);
    nav.GoToAboutMe(5000);
    atChange := nav.scrollLocked;
    nav.Tick(6199);
    at1199 := nav.scrollLocked;
    nav.Tick(6201);
    at1201 := nav.scrollLocked;
  }
}
