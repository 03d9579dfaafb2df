/** The "scroll to explore" hint: visible until the page scrolls past 50 px. */
module ScrollHint {

  /** The scroll offset up to which the hint stays visible, in px. */
  const THRESHOLD: real := 50.0

  /** The rendered opacity target: 1 when visible, 0 otherwise. */
  function HintOpacity(visible: bool): (o: real)
    ensures o == 1.0 <==> visible
    ensures o == 0.0 <==> !visible
  {
    if visible then 1.0 else 0.0
  }

  class Hint {
    var visible: bool
    /** How many times the `visible` state was written. */
    var writes: nat

    constructor ()
      ensures visible && writes == 0
    {
      visible := true;
      writes := 0;
    }

    /** The scroll offset changed to `latest`: the hint is visible exactly at
        offsets up to and including 50, and the state is written only when
        its value flips. */
    method OnScrollChange(latest: real)
      modifies this
      ensures visible == (latest <= THRESHOLD)
      ensures writes == old(writes) + (if visible == old(visible) then 0 else 1)
    {
      if latest > THRESHOLD && visible {
        visible := false;
        writes := writes + 1;
      } else if latest <= THRESHOLD && !visible {
        visible := true;
        writes := writes + 1;
      }
    }
  }
}
