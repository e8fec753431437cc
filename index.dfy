/**
 * The terminal page: the session's message store, its command history, the
 * command interpreter and the scan sequencer that fabricates a five-step
 * scan narrative ending in a pseudo-random verdict.
 *
 * Timer delays become one method call per timer callback
 * (`Session.ScanTimerFired`); message ids and random draws are parameters.
 * The fixed texts of the page are gathered in a `Templates` record; the
 * statements below hold for any templates, and `SourceTemplates` holds the
 * page's own strings.
 */
module Index {
  import opened Wrappers
  import opened Text
  import opened Messages

  /** The fixed texts of the page's messages. A text that quotes a file
      name, a severity or a command is split around the quoted part. */
  datatype Templates = Templates(
    welcome: string,
    help: string,
    cleared: string,
    historyHead: string,
    historyTail: string,
    noCommands: string,
    unknownHead: string,
    unknownTail: string,
    scanEcho: string,
    initHead: string,
    initTail: string,
    structureLine: string,
    hashLine: string,
    behaviourLine: string,
    cleanHead: string,
    cleanTail: string,
    threatHead: string,
    threatFile: string,
    threatCommand: string,
    threatTail: string)

  const SourceTemplates: Templates := Templates(
    welcome := "> Initializing CyberShield Engine...\n> Systems online. All defense protocols active.\n> Ready to analyze files for threats.\n\nWelcome, Operator. \U{1F680}\n\nUpload a file or type 'help' for available commands.",
    help := "> Available commands:\n\n\U{2022} scan [file] - Scan a file for threats\n\U{2022} quarantine [file] - Quarantine suspicious file\n\U{2022} history - View scan history\n\U{2022} clear - Clear terminal\n\U{2022} help - Show this message\n\nUse Ctrl+K for command palette. \U{1F4BB}\n\n\"All systems operational. Ready for commands.\"",
    cleared := "> Terminal cleared. All buffers flushed.\n\n\"Ready for next operation, Operator.\"",
    historyHead := "> Command history:\n\n",
    historyTail := "\n\n\"History buffer retrieved.\"",
    noCommands := "No commands yet",
    unknownHead := "> Error: Unknown command '",
    unknownTail := "'\n\nType 'help' for available commands.",
    scanEcho := "scan file ",
    initHead := "> Initializing deep scan on: ",
    initTail := "...",
    structureLine := "> Scanning file structure and entropy...",
    hashLine := "> Checking hash signatures against threat database...",
    behaviourLine := "> Running behavioral analysis...",
    cleanHead := "> Scan complete.\n\n\U{2705} All Systems Secure | No Threats Found (0/5)\n\nFile: ",
    cleanTail := "\nStatus: CLEAN\nIntegrity: VERIFIED\n\n\"Carry on, Operator. System integrity verified.\" \U{1F6E1}\U{FE0F}",
    threatHead := "> Scan complete.\n\n\U{26A0}\U{FE0F} Threat Detected | Risk Level: ",
    threatFile := "/5\n\nFile: ",
    threatCommand := "\nStatus: SUSPICIOUS\nThreat Signature: Matched\n\nRemediation: Quarantine recommended.\nCommand: cybershield> quarantine ",
    threatTail := "\n\n\"Threat neutralization protocol ready. Standing by for orders.\" \U{1F50D}")

  const WelcomeId: string := "welcome"

  /** How many past commands the "history" command lists. */
  const HistoryLimit: nat := 10

  /** The message the page starts with. */
  function InitialMessage(t: Templates): Message
  {
    SystemMessage(WelcomeId, t.welcome)
  }

  /** The single message "clear" leaves behind; it reuses the id "welcome". */
  function ClearedMessage(t: Templates): Message
  {
    SystemMessage(WelcomeId, t.cleared)
  }

  // ---------------------------------------------------------------------
  // Command interpreter
  // ---------------------------------------------------------------------

  datatype Command = HelpCommand | ClearCommand | HistoryCommand | ScanHint | UnknownCommand

  /** The branch taken by an already lower-cased and trimmed command. */
  function ClassifyNormal(cmd: string): Command
  {
    if cmd == "help" then HelpCommand
    else if cmd == "clear" then ClearCommand
    else if cmd == "history" then HistoryCommand
    else if "scan" <= cmd then ScanHint
    else UnknownCommand
  }

  /** The branch a command takes: decided on its lower-cased, trimmed form. */
  function Classify(command: string): (c: Command)
    ensures c == HelpCommand <==> Trim(Lower(command)) == "help"
    ensures c == ClearCommand <==> Trim(Lower(command)) == "clear"
    ensures c == HistoryCommand <==> Trim(Lower(command)) == "history"
    ensures c == ScanHint <==> "scan" <= Trim(Lower(command))
  {
    ClassifyNormal(Trim(Lower(command)))
  }

  /** The most recent commands the listing shows, newest first. */
  function HistoryEntries(history: seq<string>): (r: seq<string>)
    ensures |r| == if |history| < HistoryLimit then |history| else HistoryLimit
    ensures r <= history
  {
    if |history| < HistoryLimit then history else history[..HistoryLimit]
  }

  /** The text of the reply to "history", given the history before the call. */
  function HistoryListing(t: Templates, history: seq<string>): string
  {
    var body := JoinLines(HistoryEntries(history));
    t.historyHead + (if body == "" then t.noCommands else body) + t.historyTail
  }

  function UnknownReply(t: Templates, command: string): string
  {
    t.unknownHead + command + t.unknownTail
  }

  /** The message list after `command`, given the list and the command
      history as they were before the call. */
  function AfterCommand(t: Templates, messages: seq<Message>, history: seq<string>,
                        command: string, echoId: string, replyId: string): seq<Message>
  {
    var echoed := messages + [UserMessage(echoId, command)];
    match Classify(command)
    case HelpCommand => echoed + [SystemMessage(replyId, t.help)]
    case ClearCommand => [ClearedMessage(t)]
    case HistoryCommand => echoed + [SystemMessage(replyId, HistoryListing(t, history))]
    case ScanHint => echoed
    case UnknownCommand => echoed + [SystemMessage(replyId, UnknownReply(t, command))]
  }

  /** Every command but "clear" keeps the old list and appends the raw
      command as a user message, then at most one system reply. */
  lemma CommandIsEchoed(t: Templates, messages: seq<Message>, history: seq<string>,
                        command: string, echoId: string, replyId: string)
    requires Classify(command) != ClearCommand
    ensures var r := AfterCommand(t, messages, history, command, echoId, replyId);
      && |r| == |messages| + (if Classify(command) == ScanHint then 1 else 2)
      && r[..|messages| + 1] == messages + [UserMessage(echoId, command)]
      && (|r| == |messages| + 2 ==> r[|r| - 1].role == System)
  {
    var r := AfterCommand(t, messages, history, command, echoId, replyId);
    assert r[..|messages| + 1] == messages + [UserMessage(echoId, command)];
  }

  /** Only the lower-cased, trimmed form decides the branch, so padding a
      command with white space does not change it. */
  lemma ClassifyIgnoresPadding(lead: string, command: string, trail: string)
    requires AllSpace(lead) && AllSpace(trail)
    ensures Classify(lead + command + trail) == Classify(command)
  {
    NormaliseIgnoresPadding(lead, command, trail);
  }

  /** Nor does lower-casing it. */
  lemma ClassifyIgnoresCase(command: string)
    ensures Classify(Lower(command)) == Classify(command)
  {
    LowerIdempotent(command);
    assert Trim(Lower(Lower(command))) == Trim(Lower(command));
  }

  /** A lower-case word with no white space at either end is already in
      normal form. */
  lemma LowerCaseWordNormal(w: string)
    requires w != [] && !IsSpace(w[0]) && !IsSpace(w[|w| - 1])
    requires forall i :: 0 <= i < |w| ==> LowerChar(w[i]) == w[i]
    ensures Trim(Lower(w)) == w
  {
    forall i | 0 <= i < |w| ensures Lower(w)[i] == w[i] {
      LowerAt(w, i);
    }
    assert Lower(w) == w;
    TrimOfPadded("", w, "");
    assert "" + w + "" == w;
  }

  /** "HELP", "help" and "  help  " all take the help branch. */
  lemma HelpSpellings()
    ensures Classify("HELP") == Classify("help") == Classify("  help  ") == HelpCommand
  {
    LowerCaseWordNormal("help");
    assert Classify("help") == HelpCommand;
    assert Lower("HELP") == "help" by {
      forall i | 0 <= i < 4 ensures Lower("HELP")[i] == "help"[i] {
        LowerAt("HELP", i);
      }
    }
    ClassifyIgnoresCase("HELP");
    assert "  " + "help" + "  " == "  help  ";
    ClassifyIgnoresPadding("  ", "help", "  ");
  }

  /** The command words themselves take their own branches. */
  lemma ClearWord()
    ensures Classify("clear") == ClearCommand
  {
    LowerCaseWordNormal("clear");
  }

  lemma HistoryWord()
    ensures Classify("history") == HistoryCommand
  {
    LowerCaseWordNormal("history");
  }

  /** Any command taking the help branch is echoed and answered with the
      help text. */
  lemma HelpReply(t: Templates, messages: seq<Message>, history: seq<string>,
                  command: string, echoId: string, replyId: string)
    requires Classify(command) == HelpCommand
    ensures AfterCommand(t, messages, history, command, echoId, replyId)
            == messages + [UserMessage(echoId, command), SystemMessage(replyId, t.help)]
  {
  }

  /** "clear" replaces the whole list, including the echo just appended,
      with one system message whose id is "welcome". */
  lemma ClearResets(t: Templates, messages: seq<Message>, history: seq<string>,
                    command: string, echoId: string, replyId: string)
    requires Classify(command) == ClearCommand
    ensures AfterCommand(t, messages, history, command, echoId, replyId)
            == [SystemMessage(WelcomeId, t.cleared)]
  {
  }

  lemma {:induction false} JoinLinesNonEmpty(xs: seq<string>)
    requires xs != [] && xs[0] != ""
    ensures JoinLines(xs) != ""
  {
    if |xs| > 1 {
      assert |JoinLines(xs)| >= |xs[0]|;
    }
  }

  /** The reply to "history" with no earlier commands is the placeholder. */
  lemma HistoryWhenEmpty(t: Templates)
    ensures HistoryListing(t, []) == t.historyHead + t.noCommands + t.historyTail
  {
  }

  /** With earlier commands (non-empty lines, as the input box sends them),
      the "history" reply lists exactly the ten most recent, newest first,
      one per line: splitting its body on newlines gives them back. */
  lemma HistoryListsRecentCommands(t: Templates, history: seq<string>)
    requires history != []
    requires forall k :: 0 <= k < |history| ==> history[k] != "" && NoNewline(history[k])
    ensures var entries := HistoryEntries(history);
      && |entries| == (if |history| < 10 then |history| else 10)
      && (forall k :: 0 <= k < |entries| ==> entries[k] == history[k])
      && HistoryListing(t, history) == t.historyHead + JoinLines(entries) + t.historyTail
      && SplitLines(JoinLines(entries)) == entries
  {
    var entries := HistoryEntries(history);
    JoinLinesNonEmpty(entries);
    SplitJoinLines(entries);
  }

  /** A command whose normalised form starts with "scan" adds nothing
      beyond its echo. */
  lemma ScanHintOnlyEchoes(t: Templates, messages: seq<Message>, history: seq<string>,
                           command: string, echoId: string, replyId: string)
    requires "scan" <= Trim(Lower(command))
    ensures Classify(command) == ScanHint
    ensures AfterCommand(t, messages, history, command, echoId, replyId)
            == messages + [UserMessage(echoId, command)]
  {
    var cmd := Trim(Lower(command));
    assert cmd[0] == 's';
  }

  /** An unrecognised command is answered by one system message that quotes
      the command as typed, not its normalised form. */
  lemma UnknownEchoesOriginal(t: Templates, messages: seq<Message>, history: seq<string>,
                              command: string, echoId: string, replyId: string)
    requires Classify(command) == UnknownCommand
    ensures var r := AfterCommand(t, messages, history, command, echoId, replyId);
      && |r| == |messages| + 2
      && r[|r| - 1].role == System
      && r[|r| - 1].id == replyId
      && OccursAt(r[|r| - 1].content, command, |t.unknownHead|)
  {
    OccursBetween(t.unknownHead, command, t.unknownTail);
  }

  // ---------------------------------------------------------------------
  // Scan sequencer
  // ---------------------------------------------------------------------

  /** The four progress lines, in the order the timers emit them. */
  function ProgressText(t: Templates, fileName: string, step: nat): string
    requires step < 4
  {
    if step == 0 then t.initHead + fileName + t.initTail
    else if step == 1 then t.structureLine
    else if step == 2 then t.hashLine
    else t.behaviourLine
  }

  /** The verdict's severity from the two draws of `Math.random`: clean (0)
      when the first exceeds 0.3, otherwise 3, 4 or 5 from the second. */
  function VerdictSeverity(r: real, r2: real): (s: int)
    requires 0.0 <= r < 1.0 && 0.0 <= r2 < 1.0
    ensures s == 0 <==> r > 0.3
    ensures s != 0 ==> 3 <= s <= 5
  {
    if r > 0.3 then 0 else (r2 * 3.0).Floor + 3
  }

  /** For a threat (first draw at most 0.3), each threat severity is drawn
      for one third of the second draw's range: `s` exactly for a second
      draw in [(s - 3) / 3, (s - 2) / 3). */
  lemma ThreatSeverityReachable(r: real, r2: real, s: int)
    requires 0.0 <= r <= 0.3 && 3 <= s <= 5
    requires (s - 3) as real / 3.0 <= r2 < (s - 2) as real / 3.0
    ensures VerdictSeverity(r, r2) == s
  {
    assert (s - 3) as real <= r2 * 3.0 < (s - 2) as real;
  }

  function VerdictText(t: Templates, fileName: string, severity: int): string
  {
    if severity == 0 then t.cleanHead + fileName + t.cleanTail
    else
      (t.threatHead + IntToDecimal(severity) + t.threatFile) + fileName
      + (t.threatCommand + fileName + t.threatTail)
  }

  /** The verdict names the file, and a threat verdict its risk level. */
  lemma VerdictQuotes(t: Templates, fileName: string, severity: int)
    ensures Contains(VerdictText(t, fileName, severity), fileName)
    ensures severity != 0 ==>
      OccursAt(VerdictText(t, fileName, severity), IntToDecimal(severity), |t.threatHead|)
  {
    if severity == 0 {
      OccursBetween(t.cleanHead, fileName, t.cleanTail);
    } else {
      var sev := IntToDecimal(severity);
      var rest := t.threatCommand + fileName + t.threatTail;
      OccursBetween(t.threatHead + sev + t.threatFile, fileName, rest);
      assert VerdictText(t, fileName, severity) == t.threatHead + sev + (t.threatFile + fileName + rest);
      OccursBetween(t.threatHead, sev, t.threatFile + fileName + rest);
    }
  }

  /** The assistant message the timer of step `step` appends. */
  function ScanStepMessage(t: Templates, fileName: string, step: nat, id: string,
                           r: real, r2: real): Message
    requires step < 5
    requires 0.0 <= r < 1.0 && 0.0 <= r2 < 1.0
  {
    if step < 4 then Message(id, Assistant, ProgressText(t, fileName, step), None)
    else
      var severity := VerdictSeverity(r, r2);
      Message(id, Assistant, VerdictText(t, fileName, severity), Some(severity))
  }

  /** The five messages of one scan, with the ids the timers stamped. */
  function ScanMessages(t: Templates, fileName: string, ids: seq<string>, r: real, r2: real): seq<Message>
    requires |ids| == 5
    requires 0.0 <= r < 1.0 && 0.0 <= r2 < 1.0
  {
    seq(5, k requires 0 <= k < 5 => ScanStepMessage(t, fileName, k, ids[k], r, r2))
  }

  /** A scan's narrative: initializing (naming the file), structure and
      entropy, hash signatures, behavioural analysis, then the verdict, all
      from the assistant; only the verdict carries a severity, 0 exactly
      when clean and 3, 4 or 5 otherwise. */
  lemma ScanNarrative(t: Templates, fileName: string, ids: seq<string>, r: real, r2: real)
    requires |ids| == 5
    requires 0.0 <= r < 1.0 && 0.0 <= r2 < 1.0
    ensures var ms := ScanMessages(t, fileName, ids, r, r2);
      && |ms| == 5
      && (forall k :: 0 <= k < 5 ==> ms[k].role == Assistant && ms[k].id == ids[k])
      && (forall k :: 0 <= k < 4 ==> ms[k].severity == None)
      && ms[0].content == t.initHead + fileName + t.initTail
      && Contains(ms[0].content, fileName)
      && ms[1].content == t.structureLine
      && ms[2].content == t.hashLine
      && ms[3].content == t.behaviourLine
      && ms[4].severity.Some?
      && (ms[4].severity.value == 0 <==> r > 0.3)
      && (ms[4].severity.value != 0 ==> 3 <= ms[4].severity.value <= 5)
      && Contains(ms[4].content, fileName)
  {
    OccursBetween(t.initHead, fileName, t.initTail);
    VerdictQuotes(t, fileName, VerdictSeverity(r, r2));
  }

  /** Where `simulateScan` is in its chain of timers. */
  datatype ScanPhase = Idle | Running(fileName: string, step: nat)

  /** The page's state: the message store, the newest-first command
      history and the scanning flag, plus the pending scan timer. */
  class Session {
    const texts: Templates
    var messages: seq<Message>
    var commandHistory: seq<string>
    var isScanning: bool
    var phase: ScanPhase

    /** The flag brackets exactly the scan's timer chain. */
    ghost predicate Valid()
      reads this
    {
      && (isScanning <==> phase.Running?)
      && (phase.Running? ==> phase.step < 5)
    }

    constructor ()
      ensures Valid() && texts == SourceTemplates
      ensures messages == [InitialMessage(texts)] && commandHistory == []
      ensures !isScanning && phase == Idle
    {
      texts := SourceTemplates;
      messages := [SystemMessage(WelcomeId, SourceTemplates.welcome)];
      commandHistory := [];
      isScanning := false;
      phase := Idle;
    }

    /** `handleCommand`: record the raw command newest-first, echo it, then
        dispatch. `echoId` and `replyId` stand for the `Date.now()` stamps. */
    method HandleCommand(command: string, echoId: string, replyId: string)
      requires Valid()
      modifies this
      ensures Valid()
      ensures commandHistory == [command] + old(commandHistory)
      ensures messages == AfterCommand(texts, old(messages), old(commandHistory), command, echoId, replyId)
      ensures isScanning == old(isScanning) && phase == old(phase)
    {
      var previous := commandHistory;
      commandHistory := [command] + commandHistory;
      messages := messages + [UserMessage(echoId, command)];
      var cmd := Trim(Lower(command));
      if cmd == "help" {
        messages := messages + [SystemMessage(replyId, texts.help)];
      } else if cmd == "clear" {
        messages := [SystemMessage(WelcomeId, texts.cleared)];
      } else if cmd == "history" {
        messages := messages + [SystemMessage(replyId, HistoryListing(texts, previous))];
      } else if "scan" <= cmd {
        // only a notification, which is not modelled
      } else {
        messages := messages + [SystemMessage(replyId, UnknownReply(texts, command))];
      }
    }

    /** `handleFileScan` and the synchronous start of `simulateScan`: echo
        "scan file <name>", raise the flag and arm the first timer. The
        file controls are disabled while a scan runs, so no caller starts
        a second one. */
    method HandleFileScan(fileName: string, echoId: string)
      requires Valid() && !isScanning
      modifies this
      ensures Valid()
      ensures messages == old(messages) + [UserMessage(echoId, texts.scanEcho + fileName)]
      ensures isScanning && phase == Running(fileName, 0)
      ensures commandHistory == old(commandHistory)
    {
      messages := messages + [UserMessage(echoId, texts.scanEcho + fileName)];
      isScanning := true;
      phase := Running(fileName, 0);
    }

    /** One timer of `simulateScan` fires: it appends the next message of
        the narrative to whatever the list now holds; after the verdict the
        flag drops. `r` and `r2` are the two draws of `Math.random`. */
    method ScanTimerFired(id: string, r: real, r2: real)
      requires Valid() && phase.Running?
      requires 0.0 <= r < 1.0 && 0.0 <= r2 < 1.0
      modifies this
      ensures Valid()
      ensures messages == old(messages) + [ScanStepMessage(texts, old(phase).fileName, old(phase).step, id, r, r2)]
      ensures phase == if old(phase).step < 4 then Running(old(phase).fileName, old(phase).step + 1) else Idle
      ensures isScanning <==> old(phase).step < 4
      ensures commandHistory == old(commandHistory)
    {
      var fileName, step := phase.fileName, phase.step;
      if step < 4 {
        messages := messages + [Message(id, Assistant, ProgressText(texts, fileName, step), None)];
        phase := Running(fileName, step + 1);
      } else {
        var severity := VerdictSeverity(r, r2);
        messages := messages + [Message(id, Assistant, VerdictText(texts, fileName, severity), Some(severity))];
        isScanning := false;
        phase := Idle;
      }
    }

    /** A whole file scan with nothing else happening in between: the echo,
        then exactly the five narrative messages; the flag is up until the
        verdict has been appended. `ids[0]` stamps the echo. */
    method RunScan(fileName: string, ids: seq<string>, r: real, r2: real)
      requires Valid() && !isScanning
      requires |ids| == 6
      requires 0.0 <= r < 1.0 && 0.0 <= r2 < 1.0
      modifies this
      ensures Valid() && !isScanning && phase == Idle
      ensures messages == old(messages) + [UserMessage(ids[0], texts.scanEcho + fileName)]
                          + ScanMessages(texts, fileName, ids[1..], r, r2)
      ensures commandHistory == old(commandHistory)
    {
      HandleFileScan(fileName, ids[0]);
      ghost var start := messages;
      ghost var narrative := ScanMessages(texts, fileName, ids[1..], r, r2);
      var k := 0;
      while k < 5
        invariant 0 <= k <= 5
        invariant Valid() && commandHistory == old(commandHistory)
        invariant k < 5 ==> phase == Running(fileName, k)
        invariant k == 5 ==> phase == Idle
        invariant messages == start + narrative[..k]
      {
        assert narrative[..k + 1] == narrative[..k] + [narrative[k]];
        ScanTimerFired(ids[k + 1], r, r2);
        k := k + 1;
      }
      assert narrative[..5] == narrative;
    }
  }
}
