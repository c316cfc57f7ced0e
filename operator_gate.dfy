/**
 * The operator confirmation modal: a gate in front of the form that either
 * confirms a trimmed, non-empty operator name together with the date fixed
 * when the modal was created, or blocks for good when the operator tries to
 * dismiss it.
 */
module OperatorGate {

  import opened Wrappers
  import opened JsText

  const NAME_REQUIRED := "Please enter your name"
  const ESCAPE := "Escape"

  /** What `onConfirm` receives: the trimmed name and the fixed date. */
  datatype Identity = Identity(name: string, date: string)

  /** The modal's state: the name being typed, the fixed date, the error text, the blocked flag. */
  datatype Gate = Gate(name: string, date: string, error: string, blocked: bool)

  /**
   * What the operator can do to the rendered modal: press a key anywhere in
   * the window, click the dimmed backdrop, click inside the card, type into
   * the name field, or press Ready.
   */
  datatype UiEvent = KeyDown(key: string) | BackdropClick | CardClick | NameInput(value: string) | ReadyClick

  /** The modal's next state and, when the event confirmed, the `onConfirm` call. */
  datatype Outcome = Outcome(gate: Gate, confirmed: Option<Identity>)

  datatype Phase = Unconfirmed | Confirmed | Blocked

  function Initial(initialName: string, initialDate: string): (g: Gate)
    ensures g.name == initialName && g.date == initialDate && g.error == "" && !g.blocked
  {
    Gate(initialName, initialDate, "", false)
  }

  /** `handleConfirm`: refuses a name that trims to nothing, else confirms the trimmed name. */
  function Confirm(g: Gate): (o: Outcome)
    ensures Trim(g.name) == "" ==> o == Outcome(g.(error := NAME_REQUIRED), None)
    ensures Trim(g.name) != "" ==> o == Outcome(g, Some(Identity(Trim(g.name), g.date)))
  {
    var trimmed := Trim(g.name);
    if trimmed == "" then Outcome(g.(error := NAME_REQUIRED), None)
    else Outcome(g, Some(Identity(trimmed, g.date)))
  }

  /**
   * One event delivered to the modal as it is rendered. Escape (a window
   * listener) and a backdrop click block; a click inside the card stops
   * before the backdrop; while blocked the name field and the Ready button
   * are not rendered, so typing and Ready do nothing.
   */
  function Step(g: Gate, e: UiEvent): (o: Outcome)
    ensures o.gate.date == g.date
    ensures g.blocked ==> o.gate.blocked && o.confirmed.None?
    ensures o.gate.blocked <==> g.blocked || e == KeyDown(ESCAPE) || e == BackdropClick
    ensures o.confirmed.Some? <==> e == ReadyClick && !g.blocked && Trim(g.name) != ""
    ensures o.confirmed.Some? ==> o.confirmed.value == Identity(Trim(g.name), g.date)
  {
    match e
    case KeyDown(key) => Outcome(if key == ESCAPE then g.(blocked := true) else g, None)
    case BackdropClick => Outcome(g.(blocked := true), None)
    case CardClick => Outcome(g, None)
    case NameInput(value) => Outcome(if g.blocked then g else g.(name := value), None)
    case ReadyClick => if g.blocked then Outcome(g, None) else Confirm(g)
  }

  /**
   * A sequence of events. The first confirmation ends the run: the page then
   * stops rendering the modal (app/page.tsx), so nothing more reaches it.
   * Nothing the operator does changes the date.
   */
  function Run(g: Gate, es: seq<UiEvent>): (r: Outcome)
    ensures r.gate.date == g.date
    decreases es
  {
    if es == [] then Outcome(g, None)
    else
      var o := Step(g, es[0]);
      if o.confirmed.Some? then o else Run(o.gate, es[1..])
  }

  function PhaseOf(o: Outcome): Phase {
    if o.confirmed.Some? then Confirmed else if o.gate.blocked then Blocked else Unconfirmed
  }

  /** Once blocked, no sequence of events confirms or unblocks the modal. */
  lemma {:induction false} BlockedIsTerminal(g: Gate, es: seq<UiEvent>)
    requires g.blocked
    ensures PhaseOf(Run(g, es)) == Blocked
    decreases es
  {
    if es != [] {
      BlockedIsTerminal(Step(g, es[0]).gate, es[1..]);
    }
  }

  /** After the first confirmation the modal is gone: later events change nothing. */
  lemma {:induction false} ConfirmationIsFinal(g: Gate, es: seq<UiEvent>, more: seq<UiEvent>)
    requires Run(g, es).confirmed.Some?
    ensures Run(g, es + more) == Run(g, es)
    decreases es
  {
    assert es != [];
    assert (es + more)[0] == es[0];
    var o := Step(g, es[0]);
    if o.confirmed.None? {
      assert (es + more)[1..] == es[1..] + more;
      ConfirmationIsFinal(o.gate, es[1..], more);
    }
  }

  /**
   * Whatever the events, a confirmation carries a non-empty name that is
   * already trimmed, and the date the modal was created with.
   */
  lemma {:induction false} ConfirmedIdentityIsTrimmed(g: Gate, es: seq<UiEvent>)
    ensures Run(g, es).confirmed.Some? ==>
              var id := Run(g, es).confirmed.value;
              id.name != "" && Trim(id.name) == id.name && id.date == g.date
    decreases es
  {
    if es != [] {
      var o := Step(g, es[0]);
      if o.confirmed.Some? {
        TrimIdempotent(g.name);
      } else {
        ConfirmedIdentityIsTrimmed(o.gate, es[1..]);
      }
    }
  }

  /** A dismissal attempt before confirming always blocks; a click on the card never does. */
  lemma DismissalBlocks(g: Gate)
    requires !g.blocked
    ensures PhaseOf(Run(g, [KeyDown(ESCAPE)])) == Blocked
    ensures PhaseOf(Run(g, [BackdropClick])) == Blocked
    ensures PhaseOf(Run(g, [CardClick])) == Unconfirmed
  {
  }

  /** A fresh modal with a name that does not trim to nothing confirms on Ready. */
  lemma ReadyConfirmsTrimmedName(initialName: string, initialDate: string)
    requires Trim(initialName) != ""
    ensures Run(Initial(initialName, initialDate), [ReadyClick]).confirmed
            == Some(Identity(Trim(initialName), initialDate))
  {
  }

  /** The modal component: its state hooks are fields, its handlers methods. */
  class OperatorModal {
    var name: string
    const date: string
    var error: string
    var blocked: bool

    function State(): Gate
      reads this
    {
      Gate(name, date, error, blocked)
    }

    /** Mounting: `useState(initialName)` and `useState(initialDate)` are read once, here. */
    constructor (initialName: string, initialDate: string)
      ensures State() == Initial(initialName, initialDate)
    {
      name := initialName;
      date := initialDate;
      error := "";
      blocked := false;
    }

    /** The window `keydown` listener. */
    method HandleKeyDown(key: string)
      modifies this`blocked
      ensures blocked == (old(blocked) || key == ESCAPE)
      ensures State() == Step(old(State()), KeyDown(key)).gate
    {
      if key == ESCAPE {
        blocked := true;
      }
    }

    method HandleBackdropClick()
      modifies this`blocked
      ensures blocked
      ensures State() == Step(old(State()), BackdropClick).gate
    {
      blocked := true;
    }

    /** The name field's `onChange`. */
    method HandleNameChange(value: string)
      modifies this`name
      ensures name == value
    {
      name := value;
    }

    /** `handleConfirm`; the returned identity is the `onConfirm` call, if one is made. */
    method HandleConfirm() returns (called: Option<Identity>)
      modifies this`error
      ensures Outcome(State(), called) == Confirm(old(State()))
    {
      var trimmed := Trim(name);
      if trimmed == "" {
        error := NAME_REQUIRED;
        return None;
      }
      called := Some(Identity(trimmed, date));
    }

    /**
     * Delivers one event through the rendered modal: the card stops click
     * propagation, and only the unblocked modal renders the name field and
     * the Ready button.
     */
    method Deliver(e: UiEvent) returns (called: Option<Identity>)
      modifies this
      ensures Outcome(State(), called) == Step(old(State()), e)
    {
      called := None;
      match e {
        case KeyDown(key) => HandleKeyDown(key);
        case BackdropClick => HandleBackdropClick();
        case CardClick =>
        case NameInput(value) =>
          if !blocked {
            HandleNameChange(value);
          }
        case ReadyClick =>
          if !blocked {
            called := HandleConfirm();
          }
      }
    }
  }
}
