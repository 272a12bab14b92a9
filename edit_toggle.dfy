/**
 * The edit toggle behind an annotation marker's button: a two-state machine
 * over the text editor's `disabled` flag and the glyph shown on the button.
 */
module EditToggle {

  /** The button's glyph: a pencil while the text is read-only, a floppy disk while it is editable. */
  datatype Glyph = Pencil | Floppy

  /** The text the button shows for a glyph. */
  function Symbol(g: Glyph): (text: string)
  {
    match g
    case Pencil => "\U{270E}"
    case Floppy => "\U{1F4BE}"
  }

  /** What the toggle reads and writes: the editor's disabled flag and the button glyph. */
  datatype State = State(disabled: bool, glyph: Glyph)

  /** A new marker: editor disabled, pencil glyph. */
  const Initial := State(true, Pencil)

  /** The glyph is the save indicator exactly when editing is enabled. */
  predicate Consistent(s: State)
  {
    s.glyph == Floppy <==> !s.disabled
  }

  /**
   * In a consistent state the button reads as a pencil while the editor is
   * disabled and as a floppy disk while it is enabled.
   */
  lemma ShownGlyph(s: State)
    requires Consistent(s)
    ensures Symbol(s.glyph) == if s.disabled then "\U{270E}" else "\U{1F4BE}"
  {
  }

  /** One click: the state afterwards and whether a save was logged. */
  datatype Step = Step(next: State, saved: bool)

  /**
   * One click of the button: the disabled flag flips, the glyph follows the
   * new flag, and a save is logged exactly when editing is being switched off.
   */
  function Toggle(s: State): (r: Step)
    ensures r.next.disabled == !s.disabled
    ensures Consistent(r.next)
    ensures r.saved <==> !s.disabled && r.next.disabled
  {
    var isEditing := !s.disabled;
    Step(State(isEditing, if isEditing then Pencil else Floppy), isEditing)
  }

  /** Two clicks in a row bring a consistent state back to itself. */
  lemma ToggleTwice(s: State)
    requires Consistent(s)
    ensures Toggle(Toggle(s).next).next == s
    ensures Toggle(s).saved != Toggle(Toggle(s).next).saved
  {
  }

  /** A run of `n` clicks: the state at the end and the number of saves logged. */
  datatype Run = Run(last: State, saves: nat)

  function Clicks(s: State, n: nat): (r: Run)
    decreases n
  {
    if n == 0 then Run(s, 0)
    else
      var step := Toggle(s);
      var rest := Clicks(step.next, n - 1);
      Run(rest.last, rest.saves + if step.saved then 1 else 0)
  }

  /**
   * After `n` clicks the editor is disabled again exactly when `n` is even,
   * the glyph still matches the flag, and a save was logged once for every
   * click that closed the editor: n / 2 of them starting from a closed editor,
   * (n + 1) / 2 starting from an open one.
   */
  lemma {:induction false} ClicksFrom(s: State, n: nat)
    requires Consistent(s)
    ensures Consistent(Clicks(s, n).last)
    ensures Clicks(s, n).last.disabled == (s.disabled == (n % 2 == 0))
    ensures Clicks(s, n).saves == if s.disabled then n / 2 else (n + 1) / 2
    decreases n
  {
    if n > 0 {
      ClicksFrom(Toggle(s).next, n - 1);
    }
  }

  /** A new marker clicked `n` times: back to its initial state after an even number, n / 2 saves. */
  lemma ClicksFromInitial(n: nat)
    ensures Clicks(Initial, n).last == if n % 2 == 0 then Initial else State(false, Floppy)
    ensures Clicks(Initial, n).saves == n / 2
  {
    ClicksFrom(Initial, n);
  }
}
