/**
 * The command palette: a dialog listing the page's commands, narrowed by a
 * case-insensitive search, with a keyboard-driven selection.
 *
 * A command's action is a callback in the page; here it is the datum
 * `Action`, which the palette hands back to its caller when it fires.
 */
module CommandPalette {
  import opened Wrappers
  import opened Text

  /** What a palette entry does when it fires. */
  datatype Action = Notify(hint: string) | RunCommand(command: string)

  datatype PaletteCommand = PaletteCommand(id: string, title: string, shortcut: Option<string>, action: Action)

  /** The entry's lower-cased label (`title`) contains the lower-cased search. */
  predicate Matches(cmd: PaletteCommand, search: string)
  {
    Contains(Lower(cmd.title), Lower(search))
  }

  /** The entries the dialog lists: those matching the search, in their
      original order. */
  function Filtered(commands: seq<PaletteCommand>, search: string): (r: seq<PaletteCommand>)
    ensures |r| <= |commands|
    ensures forall c :: c in r <==> c in commands && Matches(c, search)
  {
    if commands == [] then []
    else
      var rest := Filtered(commands[1..], search);
      assert forall c :: c in commands <==> c == commands[0] || c in commands[1..];
      if Matches(commands[0], search) then [commands[0]] + rest else rest
  }

  /** Filtering splits over concatenation, so it keeps the original order. */
  lemma {:induction false} FilteredConcat(a: seq<PaletteCommand>, b: seq<PaletteCommand>, search: string)
    ensures Filtered(a + b, search) == Filtered(a, search) + Filtered(b, search)
  {
    if a == [] {
      assert a + b == b;
    } else {
      assert (a + b)[1..] == a[1..] + b;
      FilteredConcat(a[1..], b, search);
    }
  }

  /** The empty search lists every entry. */
  lemma {:induction false} EmptySearchListsAll(commands: seq<PaletteCommand>)
    ensures Filtered(commands, "") == commands
  {
    if commands != [] {
      assert Lower("") == "";
      assert Matches(commands[0], "");
      EmptySearchListsAll(commands[1..]);
    }
  }

  /** The selection after an arrow key over a list of `n` entries: ArrowDown
      moves down unless at the last entry, ArrowUp moves up and stops at 0;
      other keys leave it. */
  function Navigate(key: string, selected: int, n: nat): int
  {
    if key == "ArrowDown" then (if selected < n - 1 then selected + 1 else selected)
    else if key == "ArrowUp" then (if selected > 0 then selected - 1 else 0)
    else selected
  }

  /** The selection stays within the first entry and the last, or at 0 when
      the list is empty. */
  predicate InRange(selected: int, n: nat)
  {
    0 <= selected && (selected == 0 || selected < n)
  }

  lemma NavigateInRange(key: string, selected: int, n: nat)
    requires InRange(selected, n)
    ensures InRange(Navigate(key, selected, n), n)
  {
  }

  /** Pressing ArrowDown `k` times from the top selects entry `k`, stopping
      at the last entry. */
  function PressDown(selected: int, n: nat, k: nat): int
    decreases k
  {
    if k == 0 then selected else PressDown(Navigate("ArrowDown", selected, n), n, k - 1)
  }

  lemma {:induction false} PressDownClamps(selected: int, n: nat, k: nat)
    requires 0 <= selected && (n == 0 || selected < n)
    ensures PressDown(selected, n, k) == if n == 0 then selected
                                         else if selected + k < n then selected + k else n - 1
    decreases k
  {
    if k > 0 {
      PressDownClamps(Navigate("ArrowDown", selected, n), n, k - 1);
    }
  }

  /** Pressing ArrowUp `k` times. */
  function PressUp(selected: int, n: nat, k: nat): int
    decreases k
  {
    if k == 0 then selected else PressUp(Navigate("ArrowUp", selected, n), n, k - 1)
  }

  /** ArrowUp steps up while the selection is above the first entry and
      otherwise holds it at 0, so `k` presses from `selected` reach
      `selected - k`, or 0 when that would be below the top. */
  lemma {:induction false} PressUpClamps(selected: int, n: nat, k: nat)
    requires 0 <= selected
    ensures PressUp(selected, n, k) == if selected - k > 0 then selected - k else 0
    decreases k
  {
    if k > 0 {
      PressUpClamps(Navigate("ArrowUp", selected, n), n, k - 1);
    }
  }

  /** The dialog's state. `commands` is what the page passes in. */
  class Palette {
    const commands: seq<PaletteCommand>
    var search: string
    var selectedIndex: int
    var isOpen: bool

    ghost predicate Valid()
      reads this
    {
      InRange(selectedIndex, |Filtered(commands, search)|)
    }

    constructor (commands: seq<PaletteCommand>)
      ensures Valid() && this.commands == commands
      ensures search == "" && selectedIndex == 0 && !isOpen
    {
      this.commands := commands;
      search := "";
      selectedIndex := 0;
      isOpen := false;
    }

    /** The page opens the dialog (Ctrl+K, or the header's button); the
        search and the selection survive from last time. */
    method Open()
      requires Valid()
      modifies this
      ensures Valid() && isOpen
      ensures search == old(search) && selectedIndex == old(selectedIndex)
    {
      isOpen := true;
    }

    method Close()
      requires Valid()
      modifies this
      ensures Valid() && !isOpen
      ensures search == old(search) && selectedIndex == old(selectedIndex)
    {
      isOpen := false;
    }

    /** Typing in the search box; a changed search resets the selection to
        the first entry. */
    method SetSearch(text: string)
      requires Valid()
      modifies this
      ensures Valid() && search == text && isOpen == old(isOpen)
      ensures selectedIndex == if text != old(search) then 0 else old(selectedIndex)
    {
      var changed := text != search;
      search := text;
      if changed {
        selectedIndex := 0;
      }
    }

    /** A key press anywhere in the window. While closed nothing happens.
        Enter fires the selected entry and closes the dialog, or does
        nothing when no entry is selected. */
    method KeyDown(key: string) returns (fired: Option<Action>)
      requires Valid()
      modifies this
      ensures Valid() && search == old(search)
      ensures var filtered := Filtered(commands, search);
        if !old(isOpen) then
          fired == None && selectedIndex == old(selectedIndex) && !isOpen
        else if key == "Enter" then
          selectedIndex == old(selectedIndex)
          && (if 0 <= old(selectedIndex) < |filtered|
              then fired == Some(filtered[old(selectedIndex)].action) && !isOpen
              else fired == None && isOpen)
        else
          fired == None && isOpen && selectedIndex == Navigate(key, old(selectedIndex), |filtered|)
    {
      fired := None;
      if !isOpen {
        return;
      }
      var filtered := Filtered(commands, search);
      if key == "ArrowDown" {
        selectedIndex := if selectedIndex < |filtered| - 1 then selectedIndex + 1 else selectedIndex;
      } else if key == "ArrowUp" {
        selectedIndex := if selectedIndex > 0 then selectedIndex - 1 else 0;
      } else if key == "Enter" {
        if 0 <= selectedIndex < |filtered| {
          fired := Some(filtered[selectedIndex].action);
          isOpen := false;
        }
      }
    }

    /** Clicking the listed entry `i` fires it and closes the dialog. */
    method Click(i: nat) returns (fired: Action)
      requires Valid() && isOpen && i < |Filtered(commands, search)|
      modifies this
      ensures search == old(search) && selectedIndex == old(selectedIndex)
      ensures Valid() && !isOpen
      ensures fired == Filtered(commands, search)[i].action
    {
      fired := Filtered(commands, search)[i].action;
      isOpen := false;
    }
  }
}
