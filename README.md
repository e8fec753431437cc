# CyberShield terminal — a Dafny model

CyberShield is a demonstration web terminal. It fakes a file scanner. The
operator drops a file or types commands such as `help`, `history` and
`clear`. The page replies with system messages, and a scan produces a
five-step narrative from "the assistant" that ends in a pseudo-random
verdict. Assistant and system replies appear one character at a time. A
Ctrl+K command palette runs the same commands. A chat side panel and a
scan history page draw severity meters of their own.

This project models the logic behind those screens and proves what it
promises:

- `Index` (messages.dfy, index.dfy) is the page state: the message store,
  the newest-first command history, the scanning flag and the pending scan
  timer.
  - `Session.HandleCommand` is the command interpreter. It is proved
    against the pure function `AfterCommand`.
  - `Session.HandleFileScan` and `Session.ScanTimerFired` are the scan
    sequencer. `Session.RunScan` drives a whole scan with a loop and is
    proved to append exactly the echo plus the five messages of
    `ScanMessages`.
- `TerminalOutput` is the typewriter. It holds a map from message id to
  the text revealed so far. `Typewriter.Tick` is one firing of its timer
  and is proved against `RevealStep`. Lemmas cover what many ticks do and
  the terminal's severity meter.
- `CommandPalette` is the palette dialog: the case-insensitive filter, the
  keyboard selection, Enter and click.
- `TerminalInput` is the input line: submitting a trimmed command and
  browsing the line's own history with the arrow keys.
- `History` is the scan history page: status icons and badges, relative
  ages ("15m ago"), the five-segment severity bar and the demonstration
  list.
- `CyberShieldChat` is the chat panel: label colours, its meter, the copy
  button and the placeholder.
- `Page` wires the parts the way the page does. It also compares the
  three severity displays.
- `Text` models the JavaScript string built-ins the core relies on:
  `trim`, ASCII `toLowerCase`, `includes`, `join("\n")` and integer
  printing.

Modelling decisions:

- **Parameters.** Message ids (`Date.now()` stamps), the two draws of
  `Math.random` (reals in [0, 1)) and the current time (an integer in
  milliseconds) are parameters. The echo and the reply of one command get
  separate id parameters. In the page both come from the same clock, so
  they may be equal, and nothing in the model assumes they differ.
- **Timers.** Each timer callback is one method call. `ScanTimerFired` is
  one step of the scan's `await` chain and `Typewriter.Tick` is one
  reveal tick. Anything may happen between two calls, as with the real
  timers.
- **Fixed texts.** The page's texts are collected in an `Index.Templates`
  record. `Index.SourceTemplates` holds the exact strings, and a new
  `Session` uses them. The lemmas hold for any templates.
- **History reply.** The reply to `history` lists the command history as
  it was before the call, as the page's closure does. So the `history`
  command itself is not listed.
- **Palette during a scan.** Palette entries dispatch to
  `handleCommand` even while a scan runs. The input line refuses to send
  during a scan.
- **Palette history.** A command run from the palette enters the page's
  command history but not the input line's own history
  (`Page.Terminal.PaletteKey`).
- **Stale welcome text.** `clear` replaces the list with one message that
  reuses the id `welcome`. The typewriter's map is keyed by id alone, and
  the old welcome text is longer than the cleared text. Once the welcome
  text has been revealed at least as far as the cleared text is long, no
  tick is pending and the view keeps showing the old welcome text
  (`TerminalOutput.ClearedShowsStaleText`, `TerminalOutput.SourceClearedIsShorter`).
  A `clear` typed while the welcome text is still shorter than that
  resumes from the stored welcome prefix, so the view shows a mix of the
  two texts. This is modelled as written.

## Model

| member | source | states |
|---|---|---|
| Index.Session.constructor | src/pages/Index.tsx:20-30 | The page starts with the single welcome message (id "welcome"), an empty command history and no scan running. |
| Index.Session.HandleCommand | src/pages/Index.tsx:117-176 | The raw command is prepended to the history; the new message list is `AfterCommand` of the old list and the old history; the scanning state is untouched. |
| Index.Classify | src/pages/Index.tsx:130-175 | The branch is decided on the lower-cased, trimmed command: help, clear and history exactly for those words, the scan hint exactly for text starting with "scan", else unknown. |
| Index.AfterCommand | src/pages/Index.tsx:117-176 | The message list a command leaves, given the list and the history before the call; its properties are the lemmas below. |
| Index.CommandIsEchoed | src/pages/Index.tsx:118-128 | Every command but "clear" keeps the old list and appends the raw command as a user message, followed by at most one system reply; only the scan hint adds no reply. |
| Index.ClassifyIgnoresPadding | src/pages/Index.tsx:130 | White space around a command does not change the branch it takes. |
| Index.ClassifyIgnoresCase | src/pages/Index.tsx:130 | Lower-casing a command does not change the branch it takes. |
| Index.LowerCaseWordNormal | src/pages/Index.tsx:130 | A lower-case word without white space at its ends is its own normal form. |
| Index.HelpSpellings | src/pages/Index.tsx:130-132 | "HELP", "help" and "  help  " all take the help branch. |
| Index.ClearWord | src/pages/Index.tsx:142 | "clear" takes the clear branch. |
| Index.HistoryWord | src/pages/Index.tsx:152 | "history" takes the history branch. |
| Index.HelpReply | src/pages/Index.tsx:132-141 | A help command yields its echo followed by the help text. |
| Index.ClearResets | src/pages/Index.tsx:142-151 | A clear command replaces the whole list, echo included, with one system message with id "welcome" holding the cleared text. |
| Index.HistoryEntries | src/pages/Index.tsx:153 | The listing takes the first ten commands (or all when fewer): a prefix of the history of length min(n, 10). |
| Index.JoinLinesNonEmpty | src/pages/Index.tsx:153 | Joining lines whose first line is non-empty gives a non-empty body, so the placeholder is not used. |
| Index.HistoryWhenEmpty | src/pages/Index.tsx:159 | With no earlier commands the history reply shows "No commands yet". |
| Index.HistoryListsRecentCommands | src/pages/Index.tsx:152-162 | With earlier commands the reply lists exactly the ten most recent, newest first, one per line; splitting the body on newlines gives them back. |
| Index.ScanHintOnlyEchoes | src/pages/Index.tsx:163-164 | A command whose normal form starts with "scan" takes the scan-hint branch and adds only its echo. |
| Index.UnknownEchoesOriginal | src/pages/Index.tsx:165-175 | An unknown command gets one system reply, stamped with the reply id, that quotes the command as typed at the position after the error prefix. |
| Index.VerdictSeverity | src/pages/Index.tsx:77-86 | The verdict is clean (severity 0) exactly when the first draw exceeds 0.3; otherwise the severity is 3, 4 or 5. |
| Index.ThreatSeverityReachable | src/pages/Index.tsx:86 | For a threat draw, each severity s in 3 to 5 comes out exactly for a second draw in [(s - 3)/3, (s - 2)/3), one third of its range. |
| Index.VerdictQuotes | src/pages/Index.tsx:80-90 | The verdict text names the file, and a threat verdict prints the severity right after "Risk Level: ". |
| Index.ScanNarrative | src/pages/Index.tsx:62-94 | A scan's five messages are all from the assistant with the given ids: initialising (naming the file), structure, hashes, behaviour, then the verdict; only the verdict carries a severity, 0 exactly when clean and 3 to 5 otherwise, and it names the file. |
| Index.Session.HandleFileScan | src/pages/Index.tsx:99-115 | Appends the user echo "scan file <name>", raises the scanning flag and arms the first scan timer; the command history is unchanged. |
| Index.Session.ScanTimerFired | src/pages/Index.tsx:62-96 | One scan timer appends the next narrative message to whatever the list now holds and advances the chain; after the verdict the flag drops. |
| Index.Session.RunScan | src/pages/Index.tsx:45-115 | A whole scan with nothing in between appends exactly the echo and the five narrative messages and ends with the flag down. |
| TerminalOutput.Typewriter.constructor | src/components/TerminalOutput.tsx:18 | The revealed-text map starts empty. |
| TerminalOutput.Typewriter.Tick | src/components/TerminalOutput.tsx:26-39 | One reveal tick turns the map into `RevealStep` of the old map and the current messages. |
| TerminalOutput.RevealStep | src/components/TerminalOutput.tsx:26-39 | One reveal step: the last message's stored text gains the content's next character when a tick is pending; its properties are RevealIdle, RevealTouchesOnlyLast and RevealGrowsByOne. |
| TerminalOutput.DisplayedContent | src/components/TerminalOutput.tsx:41-44 | User messages show their content, others the stored text for their id or ""; see UserShownInFull and FrozenOnceSuperseded. |
| TerminalOutput.IsTyping | src/components/TerminalOutput.tsx:73 | The cursor shows for a non-user message whose shown text is shorter than its content; see CursorIffPending and RevealFinishes. |
| TerminalOutput.RevealIdle | src/components/TerminalOutput.tsx:27-31 | Nothing changes with no messages, a user message last, or the last message fully revealed. |
| TerminalOutput.RevealTouchesOnlyLast | src/components/TerminalOutput.tsx:27-34 | A tick changes only the last message's entry. |
| TerminalOutput.RevealGrowsByOne | src/components/TerminalOutput.tsx:30-34 | A pending tick appends exactly the content's next character; a revealed prefix stays a prefix, one longer. |
| TerminalOutput.TicksTouchOnlyLast | src/components/TerminalOutput.tsx:26-39 | Any number of ticks over the same list leave every other message's entry alone. |
| TerminalOutput.TicksReveal | src/components/TerminalOutput.tsx:26-39 | From a revealed prefix of length k, n ticks reveal the first min(k + n, length) characters. |
| TerminalOutput.RevealFinishes | src/components/TerminalOutput.tsx:31-73 | After as many ticks as characters remain, the whole content is shown, no cursor is drawn and nothing is pending. |
| TerminalOutput.FrozenOnceSuperseded | src/components/TerminalOutput.tsx:27-44 | Once a message is no longer last, its shown text and cursor stop changing, unless the new last message reuses its id. |
| TerminalOutput.UserShownInFull | src/components/TerminalOutput.tsx:41-44 | User messages are shown in full and never with a cursor. |
| TerminalOutput.CursorIffPending | src/components/TerminalOutput.tsx:73 | The cursor shows after the last message exactly while a reveal tick is pending. |
| TerminalOutput.ClearedShowsStaleText | src/components/TerminalOutput.tsx:30-43 | When the cleared message replaces a fully revealed, at least as long welcome text under the same id, no tick is pending and the view keeps the old welcome text without a cursor. |
| TerminalOutput.SourceClearedIsShorter | src/pages/Index.tsx:142-151 | The page's cleared text is shorter than, and different from, its welcome text. |
| TerminalOutput.SeverityMeter | src/components/TerminalOutput.tsx:46-66 | A meter is drawn iff the severity is present and non-zero; it has five bars, bar i lit iff i + 1 is at most the severity, all lit bars in the severity's colour. |
| TerminalOutput.LitPrefix | src/components/TerminalOutput.tsx:50-60 | A row whose first k bars are lit has exactly k lit bars. |
| TerminalOutput.MeterLightsSeverity | src/components/TerminalOutput.tsx:50-60 | The meter lights as many bars as the severity, clamped to 0 to 5. |
| CommandPalette.Filtered | src/components/CommandPalette.tsx:29-31 | An entry is listed iff it is among the commands and its lower-cased label contains the lower-cased search; never more entries than there are commands. |
| CommandPalette.FilteredConcat | src/components/CommandPalette.tsx:29-31 | Filtering splits over concatenation, so listed entries keep their original order. |
| CommandPalette.EmptySearchListsAll | src/components/CommandPalette.tsx:29-31 | The empty search lists every command. |
| CommandPalette.Navigate | src/components/CommandPalette.tsx:41-48 | The selection after an arrow key; its properties are NavigateInRange, PressDownClamps and PressUpClamps. |
| CommandPalette.NavigateInRange | src/components/CommandPalette.tsx:41-48 | The arrow keys keep the selection between the first and the last listed entry, or at 0 when none is listed. |
| CommandPalette.PressDownClamps | src/components/CommandPalette.tsx:41-45 | k presses of ArrowDown move the selection k entries down, stopping at the last entry. |
| CommandPalette.PressUp | src/components/CommandPalette.tsx:46-48 | Pressing ArrowUp k times in the palette. |
| CommandPalette.PressUpClamps | src/components/CommandPalette.tsx:46-48 | k presses of ArrowUp move the selection k entries up, stopping at 0. |
| CommandPalette.Palette.constructor | src/components/CommandPalette.tsx:26-27 | The search starts empty and the selection at 0. |
| CommandPalette.Palette.Open | src/pages/Index.tsx:35-37 | Opening the dialog keeps the search and the selection. |
| CommandPalette.Palette.Close | src/components/CommandPalette.tsx:63 | Closing the dialog keeps the search and the selection. |
| CommandPalette.Palette.SetSearch | src/components/CommandPalette.tsx:33-35 | Typing sets the search, and a changed search resets the selection to the first entry. |
| CommandPalette.Palette.KeyDown | src/components/CommandPalette.tsx:37-56 | While closed, keys do nothing; the arrows move the selection; Enter fires the selected listed entry and closes the dialog, or does nothing when no entry is selected. |
| CommandPalette.Palette.Click | src/components/CommandPalette.tsx:92-95 | Clicking listed entry i fires its action and closes the dialog. |
| TerminalInput.Browse | src/components/TerminalInput.tsx:27-44 | ArrowUp moves the cursor one entry older unless at the oldest, where nothing changes; ArrowDown moves it one newer, from the newest to -1, and does nothing at -1; other keys change nothing; the cursor stays within -1 and the last entry, and a move loads the entry reached, or an empty line at -1. |
| TerminalInput.UpThenDown | src/components/TerminalInput.tsx:27-44 | ArrowUp then ArrowDown returns the cursor to where it was, and a fresh line comes back empty. |
| TerminalInput.PressUp | src/components/TerminalInput.tsx:27-33 | Repeated ArrowUp keeps the cursor in range. |
| TerminalInput.RecallOlder | src/components/TerminalInput.tsx:27-33 | k presses of ArrowUp move the cursor k entries older, stopping at the oldest, and load that entry; from a fresh line that is the k-th most recent command. |
| TerminalInput.InputBox.constructor | src/components/TerminalInput.tsx:10-12 | The line and its history start empty, and the cursor at -1. |
| TerminalInput.InputBox.SetInput | src/components/TerminalInput.tsx:55 | Typing replaces the line and leaves the history and cursor alone. |
| TerminalInput.InputBox.Submit | src/components/TerminalInput.tsx:15-22 | A non-blank line is sent trimmed unless a scan runs; it is prepended to the history, the line clears and browsing stops. Otherwise nothing changes and nothing is sent. |
| TerminalInput.InputBox.KeyDown | src/components/TerminalInput.tsx:24-45 | Enter submits; the other keys send nothing and move the cursor and line exactly as `Browse` says. |
| TerminalInput.SentIsTrimmed | src/components/TerminalInput.tsx:16-18 | What the line sends carries no surrounding white space, and trimming it again changes nothing. |
| History.StatusIcon | src/pages/History.tsx:58-69 | The icon and colour per status; see StatusViewsAgree and KnownStatusesDistinct. |
| History.StatusBadge | src/pages/History.tsx:71-82 | The badge caption and colour per status; see StatusViewsAgree and KnownStatusesDistinct. |
| History.StatusViewsAgree | src/pages/History.tsx:58-82 | Icon and badge share their colour; only the three known statuses have one, and exactly the others show "Unknown" and the plain file icon. |
| History.KnownStatusesDistinct | src/pages/History.tsx:58-82 | The three known statuses get three different icons and badges. |
| History.AgeOf | src/pages/History.tsx:84-93 | Scans under an hour old are aged in minutes, under a day in hours, else in days; the count is the elapsed time rounded down to that unit. |
| History.AgeLabelInjective | src/pages/History.tsx:91-93 | Different ages print differently. |
| History.SameLabelSameAge | src/pages/History.tsx:84-94 | Two scans read at the same moment get the same label exactly when they fall in the same minute, hour or day bucket. |
| History.FormatTimestamp | src/pages/History.tsx:84-94 | The age label of a scan read at a given moment: the count of AgeOf followed by "m ago", "h ago" or "d ago"; see SameLabelSameAge and MockAgesPrinted. |
| History.SeveritySegments | src/pages/History.tsx:153-166 | Five segments are always drawn; segment i is lit iff i is below the severity, all lit ones in the severity's colour. |
| History.ShowThreats | src/pages/History.tsx:174 | The threats box is shown iff the item lists at least one threat. |
| History.ShowQuarantine | src/pages/History.tsx:201 | The quarantine button is shown iff the status is "malicious". |
| History.ShowEmptyState | src/pages/History.tsx:217 | The empty-state panel is shown iff the list is empty. |
| History.ViewItem | src/pages/History.tsx:121-210 | A card shows its status's icon and badge, the item's age label read at `now`, its severity segments, a threats box iff the item lists a threat (listing exactly the item's threats), and a quarantine button iff the status is "malicious", which then comes with the malicious icon and colour. |
| History.MockHistoryShown | src/pages/History.tsx:17-56 | The demonstration list is not empty; its ages are 15 minutes, 2 hours, 5 hours, 1 day and 2 days; only the malicious sample offers quarantine; the three flagged files show threats. |
| History.MockAgesPrinted | src/pages/History.tsx:21-28 | The first two cards read "15m ago" and "2h ago". |
| CyberShieldChat.SeverityColor | src/components/CyberShieldChat.tsx:36-42 | The label is red from severity 4, accent at 3, secondary at 2, and primary with no severity or one below 2. |
| CyberShieldChat.ChatMeter | src/components/CyberShieldChat.tsx:44-63 | A meter is drawn whenever a severity is present, 0 included; bar i is lit iff i + 1 is at most the severity, each lit bar in its own level's colour. |
| CyberShieldChat.SenderLabel | src/components/CyberShieldChat.tsx:109 | "CyberShield" for assistant messages, "You" otherwise; see CardsFollowMessages. |
| CyberShieldChat.ShowCopy | src/components/CyberShieldChat.tsx:122 | The copy button appears on assistant messages only; see CardsFollowMessages. |
| CyberShieldChat.ChatPanel | src/components/CyberShieldChat.tsx:65-98 | Nothing is drawn while closed, the placeholder exactly for an open panel with no messages, else one card per message. |
| CyberShieldChat.CardsFollowMessages | src/components/CyberShieldChat.tsx:107-122 | Each card shows its message's content; the label "CyberShield" and the copy button appear exactly for assistant messages, and a meter exactly when a severity is present. |
| Page.PaletteRunsNamedCommands | src/pages/Index.tsx:178-204 | The "Scan File" entry only shows a hint; every other entry runs the command its id names. |
| Page.PaletteCommandsDispatch | src/pages/Index.tsx:185-203 | The commands the palette runs take the history, clear and help branches. |
| Page.Terminal.constructor | src/pages/Index.tsx:19-30 | The page starts with the page's own texts and the welcome message, no scan, empty histories, an empty input line with no history entry selected, an empty reveal map, and a closed palette holding the page's entries with an empty search and the first entry selected. |
| Page.Terminal.EnterInBox | src/pages/Index.tsx:234 | Enter sends the trimmed line exactly when it is not blank and no scan runs; a sent line goes to the command handler, so both histories gain the same entry, the line clears and browsing stops; otherwise nothing changes; the scan state is never touched. |
| Page.Terminal.PaletteKey | src/pages/Index.tsx:243-247 | A key fires the selected listed entry exactly on Enter while the palette is open and an entry is selected, and the palette then closes; while open, other keys move the selection as `Navigate` says; a fired entry that runs a command runs it in the session, recording it in the page's history but not in the input line's; the scan state is never touched. |
| Page.Terminal.CtrlK | src/pages/Index.tsx:33-43 | Ctrl+K opens the palette, keeping its search and selection. |
| Page.Terminal.RevealTick | src/pages/Index.tsx:232 | A reveal tick works on the session's current messages. |
| Page.DisplaysLightSameBars | src/components/CyberShieldChat.tsx:47-57 | For a non-zero severity the terminal's meter, the chat's meter and the history's bar light the same bars. |
| Page.ZeroSeverityDisplays | src/components/TerminalOutput.tsx:47 | For severity 0 the terminal draws no meter, while the chat and the history draw five unlit bars. |
| Page.DisplaysColourDifferently | src/components/CyberShieldChat.tsx:51-56 | Examples of the different colourings: at severity 5 the first bar is red in the terminal but secondary in the chat; at severity 3 it is amber in the history and accent in the terminal. The general rules are the ensures of SeverityMeter, ChatMeter and SeveritySegments. |
| Page.VerdictMeter | src/pages/Index.tsx:77-90 | A verdict carries a terminal meter exactly for a threat; it lights as many bars as the risk level, red from level 4, accent at 3. |
| Text.Trim | src/pages/Index.tsx:130 | JavaScript's `trim`, over its white-space set; its properties are TrimShape, TrimSplit, TrimOfPadded and TrimIdempotent. |
| Text.Lower | src/pages/Index.tsx:130 | `toLowerCase` on ASCII letters; it keeps the length. |
| Text.TrimShape | src/pages/Index.tsx:130 | The trimmed string has no white space at either end and sits inside the original surrounded only by white space. |
| Text.TrimOfPadded | src/pages/Index.tsx:130 | Trimming a white-space-padded trimmed string gives that string. |
| Text.TrimIdempotent | src/components/TerminalInput.tsx:16-18 | Trimming twice is trimming once. |
| Text.TrimIgnoresPadding | src/pages/Index.tsx:130 | Extra white space around a string does not change its trimmed form. |
| Text.TrimSplit | src/pages/Index.tsx:130 | Every string is its trimmed form surrounded by white space only. |
| Text.LowerIdempotent | src/pages/Index.tsx:130 | Lower-casing twice is lower-casing once. |
| Text.NormaliseIgnoresPadding | src/pages/Index.tsx:130 | Lower-casing then trimming ignores white-space padding. |
| Text.Contains | src/components/CommandPalette.tsx:30 | The substring test holds iff the substring occurs at some position. |
| Text.OccursBetween | src/pages/Index.tsx:171 | A string placed between two others occurs right after the first. |
| Text.JoinLines | src/pages/Index.tsx:153 | `join("\n")`; see SplitJoinLines. |
| Text.SplitJoinLines | src/pages/Index.tsx:153 | Joining non-empty, newline-free lines with "\n" and splitting again gives the lines back. |
| Text.NatToDecimalRoundTrip | src/pages/Index.tsx:88 | A printed natural number is all digits and reads back as itself. |
| Text.IntToDecimal | src/pages/Index.tsx:88 | How a template literal prints an integer of magnitude below 10^21 (beyond that JavaScript uses exponent notation, which no count, severity or age on the page reaches); see IntToDecimalRoundTrip. |
| Text.IntToDecimalRoundTrip | src/pages/Index.tsx:88 | A printed integer is a decimal numeral that reads back as itself. |
| Text.IntToDecimalInjective | src/pages/History.tsx:91-93 | Different integers print differently. |

## Left out

- Timer durations (800 ms to 1200 ms between scan steps, 30 ms per character) are not modelled; each timer firing is a method call.
- Toast notifications (scan started, clean, threat detected, terminal cleared, the typed "scan" command's drag-and-drop hint, the palette's "Scan File" hint) are not modelled; the palette's hint is returned as a `Notify` action.
- The clipboard, the copy button's "Copied" state (`copiedId`) and its 2-second reset are not modelled.
- Message timestamps (`new Date()`) and their display are left out; the history page's current time is an integer parameter.
- React rendering, scrolling to the bottom, styling and the animation of the meters are left out; the displays are modelled as the tones and texts they show.
- React effect scheduling is modelled atomically. The palette's reset of the selection when the search changes happens in `SetSearch` itself. Each reveal tick sees the current messages and map, because the source cancels its timer on every change.
- The window key listeners (Ctrl+K on the page, the palette's arrows and Enter) are modelled as calls on `Page.Terminal` and `CommandPalette.Palette`.
- MatrixBackground, Settings, TerminalHeader and ScanCard are not part of this model; ScanCard only reaches the page through `Index.Session.HandleFileScan`.
- Index.Session.HandleFileScan: requires that no scan runs, because the ScanCard's file controls are disabled while `isScanning` is set; two overlapping scans are not modelled.
- Index.Session.RunScan: covers a scan with nothing interleaved; interleavings are covered step by step by `Index.Session.ScanTimerFired`, which works on whatever the list holds.
- TerminalInput.InputBox.KeyDown: the text field is also disabled while a scan runs; the model instead relies on the submit guard on `isScanning`, which has the same effect on what is sent.
- Text.Lower: only ASCII letters are lower-cased, where JavaScript's `toLowerCase` maps all of Unicode. The command words are ASCII, so `Index.Classify` picks the same branch for them. The palette filter also lower-cases the operator's search text. The page's four labels ("Scan File", "View History", "Clear Terminal", "Show Help") are ASCII. A search that contains a character whose JavaScript lower-case form contains a non-ASCII character matches none of these labels, in the source and in the model alike. Two non-ASCII characters lower-case to forms with ASCII letters. The Kelvin sign U+212A becomes "k", and no label contains a "k". U+0130 becomes "i" followed by U+0307, and no label contains U+0307. So for the page's entries the filtered list is the same. For arbitrary labels it can differ.
- TerminalOutput.Typewriter.Tick: string lengths and indices count Unicode scalar values, where JavaScript counts UTF-16 units, so an emoji outside the Basic Multilingual Plane is revealed in one tick here and in two in the source.
- Index.VerdictSeverity: `Math.random` is taken as an exact real in [0, 1); floating-point rounding of `r2 * 3` is not modelled (it cannot reach 3 for a draw below 1).
