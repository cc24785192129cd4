/**
 * The custom cursor's shared state (src/hooks/useCursor.tsx): a label and a
 * variant, written by the enter/leave handlers that `useCursorHandlers` hands
 * to buttons and links.
 */
module Cursor {
  import opened Wrappers

  /** The cursor's label and variant. */
  datatype CursorState = CursorState(text: string, variant: string)

  /** The state before any handler has run, and the one a leave restores. */
  function InitialState(): CursorState {
    CursorState("", "default")
  }

  /** What a `useCursorHandlers(variant, text)` call captured; `text` defaults to the empty string. */
  datatype CursorHandlers = CursorHandlers(variant: string, text: string)

  /** `useCursorHandlers(variant, text?)`: an omitted label is the empty string. */
  function UseCursorHandlers(variant: string, text: Option<string>): (h: CursorHandlers)
    ensures h.variant == variant
    ensures text.Some? ==> h.text == text.value
    ensures text.None? ==> h.text == ""
  {
    CursorHandlers(variant, text.GetOr(""))
  }

  /** A pointer event on an element that spread the handlers. */
  datatype CursorEvent = Enter(handlers: CursorHandlers) | Leave(handlers: CursorHandlers)

  /** The state after one event: enter writes the handler's pair, leave the initial pair. */
  function Step(s: CursorState, e: CursorEvent): (r: CursorState)
    ensures e.Enter? ==> r == CursorState(e.handlers.text, e.handlers.variant)
    ensures e.Leave? ==> r == InitialState()
  {
    match e
    case Enter(h) => CursorState(h.text, h.variant)
    case Leave(_) => CursorState("", "default")
  }

  /** The state after a run of events. */
  function Run(s: CursorState, events: seq<CursorEvent>): CursorState
    decreases |events|
  {
    if events == [] then s else Run(Step(s, events[0]), events[1..])
  }

  /** Last writer wins: after a non-empty run the state is what the last event wrote, whatever came before. */
  lemma {:induction false} RunLastWriterWins(s: CursorState, events: seq<CursorEvent>)
    requires events != []
    ensures Run(s, events) == Step(InitialState(), events[|events| - 1])
    decreases |events|
  {
    if |events| > 1 {
      RunLastWriterWins(Step(s, events[0]), events[1..]);
    }
  }

  /** Entering and then leaving any element returns to the initial state; a second leave changes nothing. */
  lemma EnterLeave(s: CursorState, a: CursorHandlers, b: CursorHandlers, c: CursorHandlers)
    ensures Step(Step(s, Enter(a)), Leave(b)) == InitialState()
    ensures Step(Step(s, Leave(b)), Leave(c)) == Step(s, Leave(b))
  {
  }

  /** `CursorProvider`'s state. */
  class CursorProvider {
    var cursorText: string
    var cursorVariant: string

    function State(): CursorState
      reads this
    {
      CursorState(cursorText, cursorVariant)
    }

    constructor()
      ensures State() == InitialState()
    {
      cursorText := "";
      cursorVariant := "default";
    }

    /** `onMouseEnter`. */
    method OnMouseEnter(h: CursorHandlers)
      modifies this
      ensures State() == Step(old(State()), Enter(h))
    {
      cursorText := h.text;
      cursorVariant := h.variant;
    }

    /** `onMouseLeave`. */
    method OnMouseLeave(h: CursorHandlers)
      modifies this
      ensures State() == Step(old(State()), Leave(h))
    {
      cursorText := "";
      cursorVariant := "default";
    }
  }
}
