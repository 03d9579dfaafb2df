/** The ghost cursor: a follower dot and a text label that track the pointer,
    an idle pulse entered after a quiet window, and hover magnification over
    buttons and links. Every tween is modelled as the assignment of its target
    value; the idle pulse is the `isIdle` flag together with the pulse scale. */
module GhostCursor {
  import opened Wrappers

  /** The quiet window before the idle pulse starts, in ms. */
  const IDLE_DELAY: int := 500
  const REST_SCALE: real := 1.0
  /** The scale the idle pulse swings toward. */
  const PULSE_SCALE: real := 1.2
  const HOVER_SCALE: real := 4.0
  const REST_OPACITY: real := 1.0
  const HOVER_OPACITY: real := 0.5

  /** ASCII lower-casing of one character. */
  function LowerChar(c: char): (d: char)
    ensures 'A' <= c <= 'Z' ==> d as int == c as int + 32
    ensures !('A' <= c <= 'Z') ==> d == c
  {
    if 'A' <= c <= 'Z' then (c as int + 32) as char else c
  }

  /** `toLowerCase` restricted to ASCII letters. */
  function Lower(s: string): (r: string)
    ensures |r| == |s|
    ensures forall i :: 0 <= i < |s| ==> r[i] == LowerChar(s[i])
  {
    seq(|s|, i requires 0 <= i < |s| => LowerChar(s[i]))
  }

  /** The element a hover event targets: its tag name and the tag names of its
      ancestors, nearest first. */
  datatype Element = Element(tagName: string, ancestorTags: seq<string>)

  /** `element.closest(tag)`: the element itself or one of its ancestors has that tag. */
  predicate Closest(e: Element, tag: string)
  {
    Lower(e.tagName) == tag || exists i :: 0 <= i < |e.ancestorTags| && Lower(e.ancestorTags[i]) == tag
  }

  /** The hover classification: a button or a link, or inside one. */
  predicate IsInteractive(e: Element)
  {
    Lower(e.tagName) == "button" || Lower(e.tagName) == "a" || Closest(e, "button") || Closest(e, "a")
  }

  /** An element is interactive iff it or an ancestor is a button or a link,
      whatever the case of its tag names. */
  lemma InteractiveIffButtonOrLinkOnPath(e: Element)
    ensures IsInteractive(e) <==>
      (exists tag :: tag in [e.tagName] + e.ancestorTags && (Lower(tag) == "button" || Lower(tag) == "a"))
  {
    if IsInteractive(e) {
      if Lower(e.tagName) == "button" || Lower(e.tagName) == "a" {
        assert ([e.tagName] + e.ancestorTags)[0] == e.tagName;
      } else if i :| 0 <= i < |e.ancestorTags| && Lower(e.ancestorTags[i]) == "button" {
        assert ([e.tagName] + e.ancestorTags)[i + 1] == e.ancestorTags[i];
      } else {
        var i :| 0 <= i < |e.ancestorTags| && Lower(e.ancestorTags[i]) == "a";
        assert ([e.tagName] + e.ancestorTags)[i + 1] == e.ancestorTags[i];
      }
    } else {
      forall tag | tag in [e.tagName] + e.ancestorTags
        ensures Lower(tag) != "button" && Lower(tag) != "a"
      {
        var k :| 0 <= k < |[e.tagName] + e.ancestorTags| && ([e.tagName] + e.ancestorTags)[k] == tag;
        if k > 0 {
          assert e.ancestorTags[k - 1] == tag;
        }
      }
    }
  }

  /** The label's opacity: shown exactly when the channel text is non-null and non-empty. */
  function LabelOpacity(text: Option<string>): (o: real)
    ensures o == 1.0 <==> text.Some? && text.value != ""
    ensures o == 0.0 <==> !(text.Some? && text.value != "")
  {
    if text.Some? && text.value != "" then 1.0 else 0.0
  }

  /** The follower, its label, and the idle controller built by the setup effect. */
  class Cursor {
    /** Whether the component has mounted; before that it renders nothing. */
    var mounted: bool
    /** Whether the setup effect's listeners are installed. */
    var listening: bool
    var isIdle: bool
    /** The deadline of the single pending idle timer, if one is armed. */
    var idleTimer: Option<int>
    /** The model clock, in ms. */
    var now: int
    /** Target scale and opacity of the follower dot. */
    var scale: real
    var opacity: real
    /** Target positions of the dot and of the label. */
    var cursorX: int
    var cursorY: int
    var labelX: int
    var labelY: int
    /** When the last move or hover event (or the setup) re-armed the timer. */
    ghost var lastActivity: int

    /** While listening, the timer is pending exactly when not idle, it is due
        500 ms after the last activity, and idle holds exactly once that
        deadline has passed, with the pulse driving the scale. */
    ghost predicate Valid()
      reads this
    {
      (listening ==> mounted) &&
      (!listening ==> idleTimer.None?) &&
      (listening ==> (isIdle <==> idleTimer.None?)) &&
      (listening && !isIdle ==>
         idleTimer == Some(lastActivity + IDLE_DELAY) && now < lastActivity + IDLE_DELAY) &&
      (listening && isIdle ==> lastActivity + IDLE_DELAY <= now && scale == PULSE_SCALE)
    }

    /** The first render at time `t`: nothing is mounted yet, so nothing renders. */
    constructor (t: int)
      ensures Valid() && now == t
      ensures !mounted && !listening && !isIdle && idleTimer == None
      ensures scale == REST_SCALE && opacity == REST_OPACITY
    {
      mounted, listening, isIdle := false, false, false;
      idleTimer := None;
      now := t;
      scale, opacity := REST_SCALE, REST_OPACITY;
      cursorX, cursorY, labelX, labelY := 0, 0, 0, 0;
      lastActivity := t;
    }

    /** `startIdleAnimation`: enters idle and starts the pulse; no-op when already idle. */
    method StartIdleAnimation()
      modifies this`isIdle, this`scale
      ensures old(isIdle) ==> isIdle && scale == old(scale)
      ensures !old(isIdle) ==> isIdle && scale == PULSE_SCALE
    {
      if isIdle {
        return;
      }
      isIdle := true;
      scale := PULSE_SCALE;
    }

    /** `stopIdleAnimation`: kills the pulse and returns to rest scale; no-op when not idle. */
    method StopIdleAnimation()
      modifies this`isIdle, this`scale
      ensures !old(isIdle) ==> !isIdle && scale == old(scale)
      ensures old(isIdle) ==> !isIdle && scale == REST_SCALE
    {
      if !isIdle {
        return;
      }
      isIdle := false;
      scale := REST_SCALE;
    }

    /** `resetIdleTimer`: stops any pulse, clears the pending timer and arms a new one. */
    method ResetIdleTimer()
      modifies this`isIdle, this`scale, this`idleTimer, this`lastActivity
      ensures !isIdle && idleTimer == Some(now + IDLE_DELAY) && lastActivity == now
      ensures scale == if old(isIdle) then REST_SCALE else old(scale)
    {
      if isIdle {
        StopIdleAnimation();
      }
      idleTimer := Some(now + IDLE_DELAY);
      lastActivity := now;
    }

    /** The clock reaches `t`; a due idle timer fires on the way. */
    method AdvanceTo(t: int)
      requires Valid() && now <= t
      modifies this
      ensures Valid() && now == t
      ensures listening ==> (isIdle <==> lastActivity + IDLE_DELAY <= t)
      ensures mounted == old(mounted) && listening == old(listening) && lastActivity == old(lastActivity)
      ensures opacity == old(opacity)
      ensures scale == if listening && !old(isIdle) && isIdle then PULSE_SCALE else old(scale)
      ensures !listening ==> isIdle == old(isIdle)
      ensures cursorX == old(cursorX) && cursorY == old(cursorY)
      ensures labelX == old(labelX) && labelY == old(labelY)
    {
      if idleTimer.Some? && idleTimer.value <= t {
        idleTimer := None;
        StartIdleAnimation();
      }
      now := t;
    }

    /** Mount at time `t` and run the setup effect: rest scale and opacity,
        not idle, and the first idle timer armed. A repeated mount runs no setup
        again; only the clock advances. */
    method Mount(t: int)
      requires Valid() && now <= t
      modifies this
      ensures Valid() && now == t && mounted
      ensures !old(mounted) ==>
                listening && !isIdle && idleTimer == Some(t + IDLE_DELAY) && lastActivity == t &&
                scale == REST_SCALE && opacity == REST_OPACITY
      ensures old(mounted) ==>
                listening == old(listening) && lastActivity == old(lastActivity) &&
                opacity == old(opacity) &&
                (listening ==> (isIdle <==> old(lastActivity) + IDLE_DELAY <= t)) &&
                (!listening ==> isIdle == old(isIdle) && scale == old(scale))
      ensures cursorX == old(cursorX) && cursorY == old(cursorY)
      ensures labelX == old(labelX) && labelY == old(labelY)
    {
      AdvanceTo(t);
      if !mounted {
        mounted := true;
        scale, opacity := REST_SCALE, REST_OPACITY;
        isIdle := false;
        listening := true;
        ResetIdleTimer();
      }
    }

    /** The setup effect's cleanup: listeners removed and the pending timer cleared. */
    method Teardown()
      requires Valid()
      modifies this
      ensures Valid() && !listening && idleTimer == None
      ensures mounted == old(mounted) && now == old(now) && lastActivity == old(lastActivity)
      ensures isIdle == old(isIdle) && scale == old(scale) && opacity == old(opacity)
      ensures cursorX == old(cursorX) && cursorY == old(cursorY)
      ensures labelX == old(labelX) && labelY == old(labelY)
    {
      listening := false;
      idleTimer := None;
    }

    /** `mousemove` at time `t` to (x, y): re-arms the idle timer (ending any
        pulse) and retargets both the dot and the label to the new coordinates. */
    method MoveCursor(t: int, x: int, y: int)
      requires Valid() && now <= t
      modifies this
      ensures Valid() && now == t
      ensures mounted == old(mounted) && listening == old(listening)
      ensures listening ==>
                !isIdle && idleTimer == Some(t + IDLE_DELAY) && lastActivity == t &&
                cursorX == x && cursorY == y && labelX == x && labelY == y &&
                opacity == old(opacity) &&
                scale == (if old(lastActivity) + IDLE_DELAY <= t then REST_SCALE else old(scale))
      ensures !listening ==>
                cursorX == old(cursorX) && cursorY == old(cursorY) &&
                labelX == old(labelX) && labelY == old(labelY) &&
                scale == old(scale) && opacity == old(opacity) &&
                isIdle == old(isIdle) && idleTimer == old(idleTimer) && lastActivity == old(lastActivity)
    {
      AdvanceTo(t);
      if listening {
        ResetIdleTimer();
        cursorX, cursorY := x, y;
        labelX, labelY := x, y;
      }
    }

    /** `mouseover` at time `t` on `target`: re-arms the idle timer (ending any
        pulse), then enlarges and fades the dot only over an interactive target. */
    method HandleHoverStart(t: int, target: Element)
      requires Valid() && now <= t
      modifies this
      ensures Valid() && now == t
      ensures mounted == old(mounted) && listening == old(listening)
      ensures listening ==> !isIdle && idleTimer == Some(t + IDLE_DELAY) && lastActivity == t
      ensures listening && IsInteractive(target) ==> scale == HOVER_SCALE && opacity == HOVER_OPACITY
      ensures listening && !IsInteractive(target) ==>
                opacity == old(opacity) &&
                scale == (if old(lastActivity) + IDLE_DELAY <= t then REST_SCALE else old(scale))
      ensures !listening ==>
                scale == old(scale) && opacity == old(opacity) &&
                isIdle == old(isIdle) && idleTimer == old(idleTimer) && lastActivity == old(lastActivity)
      ensures cursorX == old(cursorX) && cursorY == old(cursorY)
      ensures labelX == old(labelX) && labelY == old(labelY)
    {
      AdvanceTo(t);
      if listening {
        ResetIdleTimer();
        if IsInteractive(target) {
          scale, opacity := HOVER_SCALE, HOVER_OPACITY;
        }
      }
    }

    /** `mouseout` at time `t`, whatever the target: rest scale and opacity,
        then the idle timer is re-armed. */
    method HandleHoverEnd(t: int)
      requires Valid() && now <= t
      modifies this
      ensures Valid() && now == t
      ensures mounted == old(mounted) && listening == old(listening)
      ensures listening ==>
                !isIdle && idleTimer == Some(t + IDLE_DELAY) && lastActivity == t &&
                scale == REST_SCALE && opacity == REST_OPACITY
      ensures !listening ==>
                scale == old(scale) && opacity == old(opacity) &&
                isIdle == old(isIdle) && idleTimer == old(idleTimer) && lastActivity == old(lastActivity)
      ensures cursorX == old(cursorX) && cursorY == old(cursorY)
      ensures labelX == old(labelX) && labelY == old(labelY)
    {
      AdvanceTo(t);
      if listening {
        scale, opacity := REST_SCALE, REST_OPACITY;
        ResetIdleTimer();
      }
    }
  }

  /** Moves at t = 0 and t = 400: still active at 899, idle from 900 on. */
  method IdleTimelineScenario() returns (idleAt899: bool, idleAt900: bool)
    ensures !idleAt899 && idleAt900
  {
    var c := new Cursor(-100);
    c.Mount(-100);
    c.MoveCursor(0, 10, 10);
    c.MoveCursor(400, 20, 30);
    c.AdvanceTo(899);
    idleAt899 := c.isIdle;
    c.AdvanceTo(900);
    idleAt900 := c.isIdle;
  }

  /** A pointer resting on a button: enlarged at once, and 500 ms later the
      idle pulse takes over the scale while the dot stays faded. */
  method RestingOnButtonScenario() returns (hoverScale: real, laterIdle: bool, laterScale: real, laterOpacity: real)
    ensures hoverScale == HOVER_SCALE
    ensures laterIdle && laterScale == PULSE_SCALE && laterOpacity == HOVER_OPACITY
  {
    var c := new Cursor(0);
    c.Mount(0);
    c.HandleHoverStart(100, Element("BUTTON", []));
    hoverScale := c.scale;
    c.AdvanceTo(600);
    laterIdle, laterScale, laterOpacity := c.isIdle, c.scale, c.opacity;
  }
}
