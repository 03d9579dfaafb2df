/** The methodology accordion: three steps per track, at most one open. */
module Methodology {
  import opened Wrappers
  import opened Tracks
  import opened CursorContext

  const ENTER_LABEL: string := "VIEW DETAILS"

  /** The text of one step card; the rich detail markup is presentation. */
  datatype Step = Step(title: string, subtitle: string, desc: string)

  /** The number of step cards, the same on both tracks. */
  const STEP_COUNT: nat := 3

  /** The step table for a track: the LOGIC copy or the DESIGN copy, three steps each. */
  function Steps(track: Track): (steps: seq<Step>)
    ensures |steps| == STEP_COUNT
    ensures forall i :: 0 <= i < |steps| ==> steps[i].title != ""
  {
    if track == LOGIC then
      [ Step("PHASE 1: ANALYSIS", "Identifying Bottlenecks",
             "Deconstructing legacy R code to find performance choke points."),
        Step("PHASE 2: MAPPING", "Logic Translation",
             "Rewriting stochastic algorithms into vectorized Python structures."),
        Step("PHASE 3: OPTIMIZATION", "The Assassin's Blade",
             "Executing iteratively to reduce runtime from 14s to 0.4s.") ]
    else
      [ Step("Empathy & Research", "Finding the Aura",
             "Defining the mood, color palette, and emotional resonance."),
        Step("Prototyping", "Shape & Motion",
             "Iterating on fluid forms and high-fidelity interaction models."),
        Step("Refinement", "The Polish",
             "Micro-interactions that make the digital feel organic.") ]
  }

  /** The toggle rule: clicking the open step closes it, any other index opens. */
  function Toggled(activeStep: Option<int>, index: int): (r: Option<int>)
    ensures r.None? <==> activeStep == Some(index)
    ensures r.Some? ==> r.value == index
  {
    if activeStep == Some(index) then None else Some(index)
  }

  /** Two clicks on the same index leave that index open if it was open before,
      and leave every step closed otherwise; so they restore the prior state
      exactly when nothing or that same step was open. */
  lemma DoubleClick(activeStep: Option<int>, index: int)
    ensures Toggled(Toggled(activeStep, index), index) ==
              (if activeStep == Some(index) then Some(index) else None)
    ensures Toggled(Toggled(activeStep, index), index) == activeStep <==>
              activeStep == None || activeStep == Some(index)
  {
  }

  /** The accordion state of one mounted section. */
  class Accordion {
    var activeStep: Option<int>
    /** The step indices a delayed scroll-into-view was scheduled for, in order. */
    var scheduledScrolls: seq<int>

    /** An open step always indexes the step table, whichever track is shown. */
    ghost predicate Valid()
      reads this
    {
      activeStep.Some? ==> 0 <= activeStep.value < STEP_COUNT
    }

    constructor ()
      ensures Valid() && activeStep == None && scheduledScrolls == []
    {
      activeStep := None;
      scheduledScrolls := [];
    }

    /** `handleStepClick(index)` for one of the rendered cards: toggles and,
        when a step is now open, schedules scrolling its details into view. */
    method HandleStepClick(index: int)
      requires Valid()
      requires 0 <= index < STEP_COUNT
      modifies this
      ensures Valid()
      ensures activeStep == Toggled(old(activeStep), index)
      ensures scheduledScrolls == old(scheduledScrolls) + (if activeStep.Some? then [index] else [])
    {
      var newStep := if activeStep == Some(index) then None else Some(index);
      activeStep := newStep;
      if newStep.Some? {
        scheduledScrolls := scheduledScrolls + [index];
      }
    }

    /** The title shown in the detail panel, or None when no step is open;
        defined for either track, so a track switch never leaves a dangling index. */
    function DetailTitle(track: Track): (title: Option<string>)
      reads this
      requires Valid()
      ensures title.None? <==> activeStep.None?
      ensures title.Some? ==>
                title.value != "" && exists i :: 0 <= i < |Steps(track)| && Steps(track)[i].title == title.value
    {
      if activeStep.None? then None else Some(Steps(track)[activeStep.value].title)
    }
  }

  /** The section's mouse-enter handler writes its label to the channel. */
  method OnMouseEnter(channel: CursorChannel)
    modifies channel
    ensures channel.cursorText == Some(ENTER_LABEL)
  {
    channel.SetCursorText(Some(ENTER_LABEL));
  }

  /** The section's mouse-leave handler writes the empty string, not null. */
  method OnMouseLeave(channel: CursorChannel)
    modifies channel
    ensures channel.cursorText == Some("")
  {
    channel.SetCursorText(Some(""));
  }
}
