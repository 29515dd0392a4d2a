/**
 * app/js/hud/controls/SelectBox.js: a label between a left and a right
 * button that cycles through a list of options. Sprites, buttons and the
 * label's layout are left out; the label's text and the dispatched
 * `change` events are kept.
 */
module SelectBoxes {
  import opened Common

  /** An option is either a plain string, shown and reported as itself, or a text/value pair. */
  datatype SelectOption = Plain(s: string) | Labelled(text: string, value: string)

  /** onChange's reading of an option: the text shown and the value reported. */
  function TextOf(o: SelectOption): string
  {
    match o
    case Plain(s) => s
    case Labelled(t, _) => t
  }

  function ValueOf(o: SelectOption): string
  {
    match o
    case Plain(s) => s
    case Labelled(_, v) => v
  }

  /** onLeft's arithmetic: below zero restarts from `n`, then one step back, `%` as JavaScript computes it. */
  function Previous(i: int, n: int): int
    requires n > 0
  {
    var j := if i - 1 < 0 then n else i;
    JsRem(j - 1, n)
  }

  /** onRight's arithmetic. */
  function Next(i: int, n: int): int
    requires n > 0
  {
    JsRem(i + 1, n)
  }

  /** `k` presses of the right button. */
  function NextTimes(i: int, n: int, k: nat): int
    requires n > 0
  {
    if k == 0 then i else Next(NextTimes(i, n, k - 1), n)
  }

  class SelectBox {
    const placeholder: string
    const options: seq<SelectOption>
    var selectedIndex: int
    var labelText: string
    /** Values carried by the `change` events dispatched so far. */
    var changes: seq<string>

    /** Nothing selected (-1) or a position of the list. */
    predicate Valid()
      reads this
    {
      -1 <= selectedIndex < |options|
    }

    constructor (options: seq<SelectOption>, placeholder: string)
      ensures this.options == options && this.placeholder == placeholder
      ensures selectedIndex == -1 && labelText == placeholder && changes == []
      ensures Valid()
    {
      this.options := options;
      this.placeholder := placeholder;
      selectedIndex := -1;
      labelText := placeholder;
      changes := [];
    }

    /** onChange: show the selected option and report its value. */
    method OnChange()
      requires 0 <= selectedIndex < |options|
      modifies this`labelText, this`changes
      ensures labelText == TextOf(options[selectedIndex])
      ensures changes == old(changes) + [ValueOf(options[selectedIndex])]
    {
      var o := options[selectedIndex];
      labelText := TextOf(o);
      changes := changes + [ValueOf(o)];
    }

    /**
     * onLeft. With no options the source's `% 0` yields NaN and onChange
     * then dereferences `undefined`, so an empty list is outside what it handles.
     */
    method OnLeft()
      requires Valid() && |options| > 0
      modifies this`selectedIndex, this`labelText, this`changes
      ensures Valid() && 0 <= selectedIndex
      ensures selectedIndex == Previous(old(selectedIndex), |options|)
      ensures labelText == TextOf(options[selectedIndex])
      ensures changes == old(changes) + [ValueOf(options[selectedIndex])]
    {
      if selectedIndex - 1 < 0 {
        selectedIndex := |options|;
      }
      selectedIndex := JsRem(selectedIndex - 1, |options|);
      OnChange();
    }

    /** onRight; the same remark on an empty list applies. */
    method OnRight()
      requires Valid() && |options| > 0
      modifies this`selectedIndex, this`labelText, this`changes
      ensures Valid() && 0 <= selectedIndex
      ensures selectedIndex == Next(old(selectedIndex), |options|)
      ensures labelText == TextOf(options[selectedIndex])
      ensures changes == old(changes) + [ValueOf(options[selectedIndex])]
    {
      selectedIndex := JsRem(selectedIndex + 1, |options|);
      OnChange();
    }
  }

  // ----------------------------------------------------------------- lemmas

  /** From nothing selected, right selects the first option and left the last. */
  lemma FirstPress(n: int)
    requires n > 0
    ensures Next(-1, n) == 0 && Previous(-1, n) == n - 1
  {
  }

  /** Both buttons keep a valid index inside the list, wrapping at either end. */
  lemma StaysInRange(i: int, n: int)
    requires n > 0 && -1 <= i < n
    ensures 0 <= Next(i, n) < n && 0 <= Previous(i, n) < n
    ensures Next(i, n) == (if i == n - 1 then 0 else i + 1)
    ensures Previous(i, n) == (if i <= 0 then n - 1 else i - 1)
  {
  }

  /** Left then right, or right then left, returns to a selected option. */
  lemma LeftRightUndo(i: int, n: int)
    requires n > 0 && 0 <= i < n
    ensures Next(Previous(i, n), n) == i
    ensures Previous(Next(i, n), n) == i
  {
    StaysInRange(i, n);
    StaysInRange(Previous(i, n), n);
    StaysInRange(Next(i, n), n);
  }

  /** One right press adds one to the position, modulo the list's length. */
  lemma NextStep(a: int, n: int)
    requires n > 0 && a >= 0
    ensures Next(a % n, n) == (a + 1) % n
  {
    var p, q := a % n, a / n;
    StaysInRange(p, n);
    if p == n - 1 {
      DivModUnique(n, 0, q + 1, a + 1);
    } else {
      DivModUnique(n, p + 1, q, a + 1);
    }
  }

  /** `k` right presses from a selected option land `k` places on, modulo the list's length. */
  lemma {:induction false} RightPresses(i: int, n: int, k: nat)
    requires n > 0 && 0 <= i < n
    ensures NextTimes(i, n, k) == (i + k) % n
  {
    if k == 0 {
      DivModUnique(n, i, 0, i);
    } else {
      RightPresses(i, n, k - 1);
      NextStep(i + k - 1, n);
    }
  }

  /** Going round the whole list comes back to where it started. */
  lemma FullCycle(i: int, n: int)
    requires n > 0 && 0 <= i < n
    ensures NextTimes(i, n, n) == i
  {
    RightPresses(i, n, n);
    DivModUnique(n, i, 1, i + n);
  }
}
