/**
 * The terminal page with its parts wired together: the input line sends
 * its commands to the session unless a scan is running, the palette's
 * entries run session commands, and the output view reveals the session's
 * messages. Also how the three severity displays compare.
 */
module Page {
  import opened Wrappers
  import opened Tones
  import Index
  import Text
  import TerminalOutput
  import TerminalInput
  import CommandPalette
  import CyberShieldChat
  import History

  /** The palette entries the page passes in. */
  const PageCommands: seq<CommandPalette.PaletteCommand> := [
    CommandPalette.PaletteCommand("scan", "Scan File", None,
      CommandPalette.Notify("Use drag & drop to scan files")),
    CommandPalette.PaletteCommand("history", "View History", Some("Ctrl+H"),
      CommandPalette.RunCommand("history")),
    CommandPalette.PaletteCommand("clear", "Clear Terminal", None,
      CommandPalette.RunCommand("clear")),
    CommandPalette.PaletteCommand("help", "Show Help", None,
      CommandPalette.RunCommand("help"))
  ]

  /** Every palette entry but the first, which only shows a hint, runs the
      terminal command its id names. */
  lemma PaletteRunsNamedCommands()
    ensures PageCommands[0].action.Notify?
    ensures forall k :: 1 <= k < |PageCommands| ==>
      PageCommands[k].action == CommandPalette.RunCommand(PageCommands[k].id)
  {
  }

  /** Those commands take the branches of the same names. */
  lemma PaletteCommandsDispatch()
    ensures Index.Classify(PageCommands[1].action.command) == Index.HistoryCommand
    ensures Index.Classify(PageCommands[2].action.command) == Index.ClearCommand
    ensures Index.Classify(PageCommands[3].action.command) == Index.HelpCommand
  {
    Index.HistoryWord();
    Index.ClearWord();
    Index.HelpSpellings();
  }

  class Terminal {
    const session: Index.Session
    const box: TerminalInput.InputBox
    const palette: CommandPalette.Palette
    const output: TerminalOutput.Typewriter

    ghost predicate Valid()
      reads this, session, box, palette
    {
      session.Valid() && box.Valid() && palette.Valid()
    }

    constructor ()
      ensures Valid() && fresh(session) && fresh(box) && fresh(palette) && fresh(output)
      ensures palette.commands == PageCommands && !palette.isOpen
      ensures palette.search == "" && palette.selectedIndex == 0
      ensures session.texts == Index.SourceTemplates && !session.isScanning
      ensures box.input == "" && box.historyIndex == -1
      ensures session.messages == [Index.InitialMessage(session.texts)]
      ensures session.commandHistory == [] && box.history == []
      ensures output.displayed == map[]
    {
      session := new Index.Session();
      box := new TerminalInput.InputBox();
      palette := new CommandPalette.Palette(PageCommands);
      output := new TerminalOutput.Typewriter();
    }

    /** Enter in the input line: a sent command goes to `handleCommand`,
        so both histories gain the same entry; nothing is sent while a
        scan runs. */
    method EnterInBox(echoId: string, replyId: string) returns (sent: Option<string>)
      requires Valid()
      modifies session, box
      ensures Valid()
      ensures sent == if Text.Trim(old(box.input)) != "" && !old(session.isScanning)
                      then Some(Text.Trim(old(box.input))) else None
      ensures sent.None? ==> session.messages == old(session.messages)
                             && session.commandHistory == old(session.commandHistory)
                             && box.history == old(box.history)
      ensures sent.Some? ==>
        && box.history == [sent.value] + old(box.history)
        && session.commandHistory == [sent.value] + old(session.commandHistory)
        && session.messages == Index.AfterCommand(session.texts, old(session.messages),
             old(session.commandHistory), sent.value, echoId, replyId)
      ensures old(box.history) == old(session.commandHistory) ==> box.history == session.commandHistory
      ensures sent.Some? ==> box.input == "" && box.historyIndex == -1
      ensures sent.None? ==> box.input == old(box.input) && box.historyIndex == old(box.historyIndex)
      ensures session.isScanning == old(session.isScanning) && session.phase == old(session.phase)
    {
      sent := box.KeyDown("Enter", session.isScanning);
      if sent.Some? {
        session.HandleCommand(sent.value, echoId, replyId);
      }
    }

    /** A key while the palette may be open: a fired entry that runs a
        command runs it in the session, which records it in the session's
        history but not in the input line's. */
    method PaletteKey(key: string, echoId: string, replyId: string) returns (fired: Option<CommandPalette.Action>)
      requires Valid()
      modifies session, palette
      ensures Valid()
      ensures box.history == old(box.history)
      ensures session.isScanning == old(session.isScanning) && session.phase == old(session.phase)
      ensures palette.search == old(palette.search)
      ensures var filtered := CommandPalette.Filtered(palette.commands, palette.search);
        var sel := old(palette.selectedIndex);
        && fired == (if old(palette.isOpen) && key == "Enter" && 0 <= sel < |filtered|
                     then Some(filtered[sel].action) else None)
        && palette.isOpen == (old(palette.isOpen) && fired.None?)
        && palette.selectedIndex == (if old(palette.isOpen) && key != "Enter"
                                     then CommandPalette.Navigate(key, sel, |filtered|) else sel)
      ensures fired.Some? && fired.value.RunCommand? ==>
        && session.commandHistory == [fired.value.command] + old(session.commandHistory)
        && session.messages == Index.AfterCommand(session.texts, old(session.messages),
             old(session.commandHistory), fired.value.command, echoId, replyId)
      ensures !(fired.Some? && fired.value.RunCommand?) ==>
        session.messages == old(session.messages) && session.commandHistory == old(session.commandHistory)
    {
      fired := palette.KeyDown(key);
      if fired.Some? && fired.value.RunCommand? {
        session.HandleCommand(fired.value.command, echoId, replyId);
      }
    }

    /** Ctrl+K opens the palette. */
    method CtrlK()
      requires Valid()
      modifies palette
      ensures Valid() && palette.isOpen
      ensures palette.search == old(palette.search) && palette.selectedIndex == old(palette.selectedIndex)
    {
      palette.Open();
    }

    /** One reveal tick over the session's current messages. */
    method RevealTick()
      requires Valid()
      modifies output
      ensures Valid()
      ensures output.displayed == TerminalOutput.RevealStep(old(output.displayed), session.messages)
    {
      output.Tick(session.messages);
    }
  }

  // ---------------------------------------------------------------------
  // The severity displays compared
  // ---------------------------------------------------------------------

  /** For a non-zero severity the terminal's meter, the chat's meter and the
      history's bar light the same bars: those at levels up to the
      severity. */
  lemma DisplaysLightSameBars(s: int)
    requires s != 0
    ensures var t := TerminalOutput.SeverityMeter(Some(s));
      var c := CyberShieldChat.ChatMeter(Some(s));
      var h := History.SeveritySegments(s);
      && t.Some? && c.Some?
      && forall i :: 0 <= i < 5 ==>
           (t.value[i] != Muted <==> c.value[i] != Muted)
           && (t.value[i] != Muted <==> h[i] != Muted)
  {
  }

  /** For severity 0 the terminal draws no meter, while the chat draws
      five unlit bars and the history five unlit segments. */
  lemma ZeroSeverityDisplays()
    ensures TerminalOutput.SeverityMeter(Some(0)).None?
    ensures CyberShieldChat.ChatMeter(Some(0)) == Some(AllMuted)
    ensures History.SeveritySegments(0) == AllMuted
  {
    var c := CyberShieldChat.ChatMeter(Some(0)).value;
    assert forall i :: 0 <= i < 5 ==> c[i] == AllMuted[i];
    assert c == AllMuted;
    var h := History.SeveritySegments(0);
    assert forall i :: 0 <= i < 5 ==> h[i] == AllMuted[i];
  }

  const AllMuted: seq<Tone> := [Muted, Muted, Muted, Muted, Muted]

  /** The colours differ: the terminal and the history paint every lit bar
      in the severity's colour, the chat paints each bar by its level. */
  lemma DisplaysColourDifferently()
    ensures TerminalOutput.SeverityMeter(Some(5)).value[0] == Destructive
    ensures CyberShieldChat.ChatMeter(Some(5)).value[0] == Secondary
    ensures History.SeveritySegments(3)[0] == Amber
    ensures TerminalOutput.SeverityMeter(Some(3)).value[0] == Accent
  {
  }

  /** The scan's verdict, shown in the terminal, carries a meter exactly
      for a threat; it lights as many bars as the risk level, in red from
      level 4 and in the accent colour at 3. */
  lemma VerdictMeter(r: real, r2: real)
    requires 0.0 <= r < 1.0 && 0.0 <= r2 < 1.0
    ensures var s := Index.VerdictSeverity(r, r2);
      var meter := TerminalOutput.SeverityMeter(Some(s));
      && (meter.Some? <==> r <= 0.3)
      && (meter.Some? ==>
            TerminalOutput.LitCount(meter.value) == s
            && meter.value[0] == (if s >= 4 then Destructive else Accent))
  {
    var s := Index.VerdictSeverity(r, r2);
    if s != 0 {
      TerminalOutput.MeterLightsSeverity(s);
    }
  }
}
