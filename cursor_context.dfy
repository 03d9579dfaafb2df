/** The label channel: a single shared slot holding the text the ghost cursor
    shows next to the pointer, or null. Any component may overwrite it. */
module CursorContext {
  import opened Wrappers

  const PROVIDER_MISSING: string := "useCursor must be used within a CursorProvider"

  /** The provider's state cell. The last write wins; nothing is queued. */
  class CursorChannel {
    var cursorText: Option<string>

    /** A fresh provider starts with an empty slot. */
    constructor ()
      ensures cursorText == None
    {
      cursorText := None;
    }

    /** Replaces the slot with `text`, whatever it held before. */
    method SetCursorText(text: Option<string>)
      modifies this
      ensures cursorText == text
    {
      cursorText := text;
    }
  }

  /** Looks up the enclosing provider; `null` stands for a component rendered
      outside any provider, which is an error rather than a default channel. */
  function UseCursor(provider: CursorChannel?): (r: Result<CursorChannel, string>)
    ensures r.Failure? <==> provider == null
    ensures r.Success? ==> r.value == provider
    ensures r.Failure? ==> r.error == PROVIDER_MISSING
  {
    if provider == null then Failure(PROVIDER_MISSING) else Success(provider)
  }

  /** A component that calls `useCursorText(text)`: its effect writes `text` on
      mount and clears the slot on cleanup, keyed on `text`. */
  class CursorTextHook {
    const channel: CursorChannel
    var text: string
    var mounted: bool

    constructor (channel: CursorChannel, text: string)
      ensures this.channel == channel && this.text == text && !mounted
    {
      this.channel := channel;
      this.text := text;
      mounted := false;
    }

    /** The effect's first run: the slot holds this component's label. */
    method Mount()
      requires !mounted
      modifies this, channel
      ensures mounted && text == old(text)
      ensures channel.cursorText == Some(text)
    {
      channel.SetCursorText(Some(text));
      mounted := true;
    }

    /** The effect's cleanup on unmount: the slot is cleared even when another
        writer has replaced this component's label in the meantime. */
    method Unmount()
      requires mounted
      modifies this, channel
      ensures !mounted && text == old(text)
      ensures channel.cursorText == None
    {
      channel.SetCursorText(None);
      mounted := false;
    }

    /** A re-render with argument `newText`: when it differs from the previous
        one, the old effect's cleanup clears the slot and the new effect writes
        `newText`; an unchanged argument re-runs nothing. */
    method Rerender(newText: string)
      requires mounted
      modifies this, channel
      ensures mounted && text == newText
      ensures newText != old(text) ==> channel.cursorText == Some(newText)
      ensures newText == old(text) ==> channel.cursorText == old(channel.cursorText)
    {
      if newText != text {
        channel.SetCursorText(None);
        channel.SetCursorText(Some(newText));
      }
      text := newText;
    }
  }

  /** The intro scene's label is on the slot once mounted; a hover writer then
      overwrites it; unmounting the intro scene clears the slot, hover label included. */
  method ClobberScenario() returns (afterMount: Option<string>, afterHover: Option<string>, afterUnmount: Option<string>)
    ensures afterMount == Some("Click to Enter")
    ensures afterHover == Some("Close")
    ensures afterUnmount == None
  {
    var channel := new CursorChannel();
    var intro := new CursorTextHook(channel, "Click to Enter");
    intro.Mount();
    afterMount := channel.cursorText;
    channel.SetCursorText(Some("Close"));
    afterHover := channel.cursorText;
    intro.Unmount();
    afterUnmount := channel.cursorText;
  }
}
