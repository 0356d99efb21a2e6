/** The `useHotKey` hook: which key events fire a registered shortcut, and what firing does. */
module Hotkey {
  import opened Types
  import opened Text

  /** The parts of a `KeyboardEvent` the handler reads. */
  datatype KeyEvent = KeyEvent(key: string, ctrlKey: bool, metaKey: bool, shiftKey: bool)

  /** The hook's `options` object; every flag may be left out. */
  datatype HotkeyOptions = HotkeyOptions(ctrl: Option<bool>, meta: Option<bool>, shift: Option<bool>)

  /** The default `options = {}`. */
  const NoOptions: HotkeyOptions := HotkeyOptions(None, None, None)

  /** A modifier is requested when its flag is present and true. */
  predicate Requested(flag: Option<bool>) {
    flag == Some(true)
  }

  /** The condition inside `handleKeyDown`. */
  predicate Fires(key: string, options: HotkeyOptions, event: KeyEvent) {
    && Lower(event.key) == Lower(key)
    && (if Requested(options.ctrl) then event.ctrlKey else true)
    && (if Requested(options.meta) then event.metaKey else true)
    && (if Requested(options.shift) then event.shiftKey else true)
  }

  /** Key comparison ignores case on both sides. */
  lemma FiresIgnoresCase(key: string, options: HotkeyOptions, event: KeyEvent)
    ensures Fires(key, options, event) == Fires(Lower(key), options, event.(key := Lower(event.key)))
  {
    LowerIdempotent(key);
    LowerIdempotent(event.key);
  }

  /** Shift+K fires a shortcut registered for "k". */
  lemma UpperCaseKeyFires()
    ensures Fires("k", NoOptions, KeyEvent("K", false, false, true))
  {
    assert Lower("K") == "k";
    assert Lower("k") == "k";
  }

  /** A requested modifier must be held. */
  lemma RequestedModifierRequired(key: string, options: HotkeyOptions, event: KeyEvent)
    requires Fires(key, options, event)
    ensures Requested(options.ctrl) ==> event.ctrlKey
    ensures Requested(options.meta) ==> event.metaKey
    ensures Requested(options.shift) ==> event.shiftKey
  {
  }

  /** Holding more modifiers never stops a shortcut from firing. */
  lemma ExtraModifiersIgnored(key: string, options: HotkeyOptions, event: KeyEvent, held: KeyEvent)
    requires held.key == event.key
    requires event.ctrlKey ==> held.ctrlKey
    requires event.metaKey ==> held.metaKey
    requires event.shiftKey ==> held.shiftKey
    ensures Fires(key, options, event) ==> Fires(key, options, held)
  {
  }

  /** With the default options the test is key equality alone, whatever modifiers are held. */
  lemma DefaultOptionsKeyOnly(key: string, event: KeyEvent)
    ensures Fires(key, NoOptions, event) <==> Lower(event.key) == Lower(key)
  {
  }

  /** A dispatched event: its data, and whether `preventDefault` has been called on it. */
  class DomKeyEvent {
    const data: KeyEvent
    var defaultPrevented: bool

    constructor (data: KeyEvent)
      ensures this.data == data && !defaultPrevented
    {
      this.data := data;
      defaultPrevented := false;
    }
  }

  /** One registered `handleKeyDown` listener; `calls` lists the events the callback has received. */
  class Listener {
    const key: string
    const options: HotkeyOptions
    var calls: seq<KeyEvent>

    constructor (key: string, options: HotkeyOptions)
      ensures this.key == key && this.options == options && calls == []
    {
      this.key := key;
      this.options := options;
      calls := [];
    }

    /** On a match, prevent the default action and run the callback once; otherwise do nothing. */
    method HandleKeyDown(event: DomKeyEvent)
      modifies this, event
      ensures event.defaultPrevented == (old(event.defaultPrevented) || Fires(key, options, event.data))
      ensures calls == old(calls) + if Fires(key, options, event.data) then [event.data] else []
    {
      if Fires(key, options, event.data) {
        event.defaultPrevented := true;
        calls := calls + [event.data];
      }
    }
  }
}
