/**
 * The terminal's input line: the text being typed, the box's own history
 * of submitted commands (newest first) and a cursor into it that the arrow
 * keys move, -1 meaning "not browsing".
 */
module TerminalInput {
  import opened Wrappers
  import opened Text

  /** The cursor and the input line after a browsing key. */
  datatype Browsed = Browsed(index: int, input: string)

  /** ArrowUp steps to the next older entry while there is one, ArrowDown
      to the next newer one, and from the newest back to an empty line;
      each loads the entry it reaches. ArrowDown when not browsing, and
      ArrowUp at the oldest entry, change nothing. */
  function Browse(key: string, index: int, history: seq<string>, input: string): (r: Browsed)
    requires -1 <= index < |history|
    ensures -1 <= r.index < |history|
    ensures key == "ArrowUp" ==>
      && r.index == (if index < |history| - 1 then index + 1 else index)
      && (index == |history| - 1 ==> r == Browsed(index, input))
    ensures key == "ArrowDown" ==>
      && r.index == (if index >= 0 then index - 1 else -1)
      && (index == -1 ==> r == Browsed(index, input))
    ensures key != "ArrowUp" && key != "ArrowDown" ==> r == Browsed(index, input)
    ensures r != Browsed(index, input) && r.index >= 0 ==> r.input == history[r.index]
    ensures r != Browsed(index, input) && r.index == -1 ==> r.input == ""
  {
    if key == "ArrowUp" then
      if index < |history| - 1 then Browsed(index + 1, history[index + 1]) else Browsed(index, input)
    else if key == "ArrowDown" then
      if index > 0 then Browsed(index - 1, history[index - 1])
      else if index == 0 then Browsed(-1, "")
      else Browsed(index, input)
    else Browsed(index, input)
  }

  /** Stepping up and then down again returns to where browsing was, but
      what had been typed on a fresh line is lost. */
  lemma UpThenDown(index: int, history: seq<string>, input: string)
    requires -1 <= index < |history| - 1
    ensures var up := Browse("ArrowUp", index, history, input);
      var down := Browse("ArrowDown", up.index, history, up.input);
      && down.index == index
      && down.input == (if index == -1 then "" else history[index])
  {
  }

  /** Pressing ArrowUp `k` times. */
  function PressUp(index: int, history: seq<string>, input: string, k: nat): (r: Browsed)
    requires -1 <= index < |history|
    ensures -1 <= r.index < |history|
    decreases k
  {
    if k == 0 then Browsed(index, input)
    else
      var up := Browse("ArrowUp", index, history, input);
      PressUp(up.index, history, up.input, k - 1)
  }

  /** `k` presses of ArrowUp move the cursor `k` entries older, stopping at
      the oldest, and load the entry reached; from a fresh line (-1) that is
      the `k`-th most recent command. */
  lemma {:induction false} RecallOlder(index: int, history: seq<string>, input: string, k: nat)
    requires -1 <= index < |history|
    requires 0 < k && history != []
    ensures var r := PressUp(index, history, input, k);
      var target := if index + k < |history| then index + k else |history| - 1;
      && r.index == target
      && (index < target ==> r.input == history[target])
      && (index == target ==> r.input == input)
    decreases k
  {
    var up := Browse("ArrowUp", index, history, input);
    if k > 1 {
      RecallOlder(up.index, history, up.input, k - 1);
    }
  }

  class InputBox {
    var input: string
    var history: seq<string>
    var historyIndex: int

    ghost predicate Valid()
      reads this
    {
      -1 <= historyIndex < |history|
    }

    constructor ()
      ensures Valid() && input == "" && history == [] && historyIndex == -1
    {
      input := "";
      history := [];
      historyIndex := -1;
    }

    /** Typing edits the line; the cursor stays where it was. */
    method SetInput(text: string)
      requires Valid()
      modifies this
      ensures Valid() && input == text
      ensures history == old(history) && historyIndex == old(historyIndex)
    {
      input := text;
    }

    /** Submitting: a line that is not blank is sent, trimmed, unless a
        scan is running; it is recorded newest-first, the line clears and
        browsing stops. Otherwise nothing changes and nothing is sent. */
    method Submit(isScanning: bool) returns (sent: Option<string>)
      requires Valid()
      modifies this
      ensures Valid()
      ensures if Trim(old(input)) != "" && !isScanning then
          && sent == Some(Trim(old(input)))
          && history == [Trim(old(input))] + old(history)
          && input == "" && historyIndex == -1
        else
          && sent == None
          && input == old(input) && history == old(history) && historyIndex == old(historyIndex)
    {
      sent := None;
      var line := Trim(input);
      if line != "" && !isScanning {
        sent := Some(line);
        history := [line] + history;
        input := "";
        historyIndex := -1;
      }
    }

    /** A key press in the line: Enter submits, the arrows browse the
        history, other keys are left to the text field. */
    method KeyDown(key: string, isScanning: bool) returns (sent: Option<string>)
      requires Valid()
      modifies this
      ensures Valid()
      ensures key != "Enter" ==>
        && sent == None && history == old(history)
        && Browsed(historyIndex, input) == Browse(key, old(historyIndex), old(history), old(input))
      ensures key == "Enter" ==>
        (if Trim(old(input)) != "" && !isScanning then
           sent == Some(Trim(old(input))) && history == [Trim(old(input))] + old(history)
           && input == "" && historyIndex == -1
         else
           sent == None && input == old(input) && history == old(history)
           && historyIndex == old(historyIndex))
    {
      sent := None;
      if key == "Enter" {
        sent := Submit(isScanning);
      } else if key == "ArrowUp" {
        if historyIndex < |history| - 1 {
          var newIndex := historyIndex + 1;
          historyIndex := newIndex;
          input := history[newIndex];
        }
      } else if key == "ArrowDown" {
        if historyIndex > 0 {
          var newIndex := historyIndex - 1;
          historyIndex := newIndex;
          input := history[newIndex];
        } else if historyIndex == 0 {
          historyIndex := -1;
          input := "";
        }
      }
    }
  }

  /** What the box sends is never blank and carries no surrounding white
      space, and trimming it again changes nothing. */
  lemma SentIsTrimmed(line: string)
    requires Trim(line) != ""
    ensures Trimmed(Trim(line)) && Trim(Trim(line)) == Trim(line)
  {
    TrimShape(line);
    TrimIdempotent(line);
  }
}
