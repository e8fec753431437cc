/**
 * The terminal's output view. It keeps one map from message id to the text
 * revealed so far, and a typewriter effect that, while the last message is
 * not the user's and is not fully revealed, reveals one more character per
 * timer tick.
 *
 * The effect's timer is cancelled whenever the messages or the map change,
 * so a tick always sees the current list and map; `Typewriter.Tick` is one
 * such tick. The 30 ms delay is not modelled.
 */
module TerminalOutput {
  import opened Wrappers
  import opened Messages
  import opened Tones
  import Index

  /** The stored text for `id`, or "" when nothing is stored. */
  function Stored(displayed: map<string, string>, id: string): string
  {
    if id in displayed then displayed[id] else ""
  }

  function Last(messages: seq<Message>): Message
    requires messages != []
  {
    messages[|messages| - 1]
  }

  /** A tick is pending: there is a last message, it is not the user's, and
      its stored text is shorter than its content. */
  predicate TickPending(displayed: map<string, string>, messages: seq<Message>)
  {
    && messages != []
    && Last(messages).role != User
    && |Stored(displayed, Last(messages).id)| < |Last(messages).content|
  }

  /** The map after one tick: the last message's entry gets the content's
      character at the stored text's length appended. */
  function RevealStep(displayed: map<string, string>, messages: seq<Message>): map<string, string>
  {
    if TickPending(displayed, messages) then
      var last := Last(messages);
      var current := Stored(displayed, last.id);
      displayed[last.id := current + [last.content[|current|]]]
    else
      displayed
  }

  /** The map after `n` ticks over an unchanged message list. */
  function Ticks(displayed: map<string, string>, messages: seq<Message>, n: nat): map<string, string>
    decreases n
  {
    if n == 0 then displayed else Ticks(RevealStep(displayed, messages), messages, n - 1)
  }

  /** The text the view shows for a message: user messages in full, the
      others as far as they have been revealed. */
  function DisplayedContent(displayed: map<string, string>, m: Message): string
  {
    if m.role == User then m.content else Stored(displayed, m.id)
  }

  /** The blinking cursor is shown after a message. */
  predicate IsTyping(displayed: map<string, string>, m: Message)
  {
    m.role != User && |DisplayedContent(displayed, m)| < |m.content|
  }

  /** The state holder of the view. */
  class Typewriter {
    var displayed: map<string, string>

    constructor ()
      ensures displayed == map[]
    {
      displayed := map[];
    }

    /** One firing of the reveal timer over the current message list. */
    method Tick(messages: seq<Message>)
      modifies this
      ensures displayed == RevealStep(old(displayed), messages)
    {
      if |messages| == 0 {
        return;
      }
      var last := messages[|messages| - 1];
      if last.role == User {
        return;
      }
      var current := if last.id in displayed then displayed[last.id] else "";
      if |current| < |last.content| {
        var next := last.content[|current|];
        displayed := displayed[last.id := current + [next]];
      }
    }
  }

  /** Nothing happens with no messages, a user message last, or the last
      message already fully revealed. */
  lemma RevealIdle(displayed: map<string, string>, messages: seq<Message>)
    requires messages == [] || Last(messages).role == User
             || |Stored(displayed, Last(messages).id)| >= |Last(messages).content|
    ensures RevealStep(displayed, messages) == displayed
  {
  }

  /** A tick changes only the last message's entry. */
  lemma RevealTouchesOnlyLast(displayed: map<string, string>, messages: seq<Message>, id: string)
    requires messages == [] || id != Last(messages).id
    ensures Stored(RevealStep(displayed, messages), id) == Stored(displayed, id)
  {
  }

  /** A tick appends exactly one character, the content's character at the
      stored length; a stored prefix of the content stays a prefix, one
      character longer. */
  lemma RevealGrowsByOne(displayed: map<string, string>, messages: seq<Message>)
    requires TickPending(displayed, messages)
    ensures var last := Last(messages);
      var before := Stored(displayed, last.id);
      var after := Stored(RevealStep(displayed, messages), last.id);
      && after == before + [last.content[|before|]]
      && |after| == |before| + 1
      && (before <= last.content ==> after == last.content[..|before| + 1] && after <= last.content)
  {
  }

  /** `n` ticks over the same list leave every entry but the last
      message's alone. */
  lemma {:induction false} TicksTouchOnlyLast(displayed: map<string, string>, messages: seq<Message>,
                                              n: nat, id: string)
    requires messages == [] || id != Last(messages).id
    ensures Stored(Ticks(displayed, messages, n), id) == Stored(displayed, id)
    decreases n
  {
    if n > 0 {
      RevealTouchesOnlyLast(displayed, messages, id);
      TicksTouchOnlyLast(RevealStep(displayed, messages), messages, n - 1, id);
    }
  }

  /** Starting from a revealed prefix of length `k`, `n` ticks reveal the
      first `k + n` characters, never more than the whole content. */
  lemma {:induction false} TicksReveal(displayed: map<string, string>, messages: seq<Message>, n: nat)
    requires messages != [] && Last(messages).role != User
    requires Stored(displayed, Last(messages).id) <= Last(messages).content
    ensures var c := Last(messages).content;
      var k := |Stored(displayed, Last(messages).id)|;
      Stored(Ticks(displayed, messages, n), Last(messages).id)
        == c[..if k + n < |c| then k + n else |c|]
    decreases n
  {
    var last := Last(messages);
    var c := last.content;
    var before := Stored(displayed, last.id);
    if n == 0 {
      assert c[..|before|] == before;
    } else if |before| < |c| {
      RevealGrowsByOne(displayed, messages);
      TicksReveal(RevealStep(displayed, messages), messages, n - 1);
    } else {
      assert before == c;
      RevealIdle(displayed, messages);
      TicksReveal(RevealStep(displayed, messages), messages, n - 1);
    }
  }

  /** The reveal ends: after as many ticks as characters remain the whole
      content is shown, the cursor is gone and no further tick is pending. */
  lemma RevealFinishes(displayed: map<string, string>, messages: seq<Message>)
    requires messages != [] && Last(messages).role != User
    requires Stored(displayed, Last(messages).id) <= Last(messages).content
    ensures var last := Last(messages);
      var done := Ticks(displayed, messages, |last.content| - |Stored(displayed, last.id)|);
      && DisplayedContent(done, last) == last.content
      && !IsTyping(done, last)
      && !TickPending(done, messages)
      && RevealStep(done, messages) == done
  {
    var last := Last(messages);
    TicksReveal(displayed, messages, |last.content| - |Stored(displayed, last.id)|);
  }

  /** Once a message is no longer the last, what the view shows for it (and
      whether it shows a cursor) no longer changes, unless the new last
      message reuses its id. */
  lemma FrozenOnceSuperseded(displayed: map<string, string>, messages: seq<Message>, n: nat, i: nat)
    requires i < |messages| - 1 && messages[i].id != Last(messages).id
    ensures DisplayedContent(Ticks(displayed, messages, n), messages[i])
            == DisplayedContent(displayed, messages[i])
    ensures IsTyping(Ticks(displayed, messages, n), messages[i]) == IsTyping(displayed, messages[i])
  {
    TicksTouchOnlyLast(displayed, messages, n, messages[i].id);
  }

  /** User messages are shown in full and never with a cursor. */
  lemma UserShownInFull(displayed: map<string, string>, m: Message)
    requires m.role == User
    ensures DisplayedContent(displayed, m) == m.content && !IsTyping(displayed, m)
  {
  }

  /** The cursor after the last message is shown exactly while a tick is
      pending. */
  lemma CursorIffPending(displayed: map<string, string>, messages: seq<Message>)
    requires messages != []
    ensures IsTyping(displayed, Last(messages)) <==> TickPending(displayed, messages)
  {
  }

  /** The map is keyed by id alone. When a fully revealed welcome message is
      replaced by the message "clear" leaves (which reuses the id
      "welcome") and the old text is at least as long as the new one, no
      tick is pending and the view keeps showing the old welcome text, with
      no cursor. */
  lemma ClearedShowsStaleText(t: Index.Templates, displayed: map<string, string>)
    requires Stored(displayed, Index.WelcomeId) == t.welcome
    requires |t.cleared| <= |t.welcome|
    ensures var messages := [Index.ClearedMessage(t)];
      && RevealStep(displayed, messages) == displayed
      && DisplayedContent(displayed, messages[0]) == t.welcome
      && !IsTyping(displayed, messages[0])
  {
  }

  /** The page's own texts meet that condition, and differ. */
  lemma SourceClearedIsShorter()
    ensures |Index.SourceTemplates.cleared| < |Index.SourceTemplates.welcome|
    ensures Index.SourceTemplates.cleared != Index.SourceTemplates.welcome
  {
  }

  // ---------------------------------------------------------------------
  // Severity meter
  // ---------------------------------------------------------------------

  /** The colour of every lit bar, chosen by the severity. */
  function MeterTone(severity: int): Tone
  {
    if severity >= 4 then Destructive else if severity >= 3 then Accent else Primary
  }

  /** The meter under a message: none when the severity is absent or 0
      (both falsy), else five bars for levels 1 to 5. */
  function SeverityMeter(severity: Option<int>): (r: Option<seq<Tone>>)
    ensures r.Some? <==> severity.Some? && severity.value != 0
    ensures r.Some? ==> |r.value| == 5
    ensures r.Some? ==> forall i :: 0 <= i < 5 ==>
      (r.value[i] != Muted <==> i + 1 <= severity.value)
      && (r.value[i] != Muted ==> r.value[i] == MeterTone(severity.value))
  {
    match severity
    case None => None
    case Some(s) =>
      if s == 0 then None
      else
        var bars := seq(5, level requires 0 <= level < 5 => if level + 1 <= s then MeterTone(s) else Muted);
        assert forall i :: 0 <= i < 5 ==> bars[i] == if i + 1 <= s then MeterTone(s) else Muted;
        Some(bars)
  }

  /** How many bars are lit. */
  function LitCount(bars: seq<Tone>): nat
  {
    if bars == [] then 0 else (if bars[0] != Muted then 1 else 0) + LitCount(bars[1..])
  }

  /** Lighting a prefix of `k` bars out of a row lights exactly `k`. */
  lemma {:induction false} LitPrefix(bars: seq<Tone>, k: nat)
    requires k <= |bars|
    requires forall i :: 0 <= i < |bars| ==> (bars[i] != Muted <==> i < k)
    ensures LitCount(bars) == k
  {
    if bars != [] {
      LitPrefix(bars[1..], if k == 0 then 0 else k - 1);
    }
  }

  /** The meter lights as many bars as the severity says, at most five, the
      lowest levels first and all in one colour. */
  lemma MeterLightsSeverity(s: int)
    requires s != 0
    ensures var bars := SeverityMeter(Some(s)).value;
      LitCount(bars) == (if s < 0 then 0 else if s > 5 then 5 else s)
  {
    var bars := SeverityMeter(Some(s)).value;
    LitPrefix(bars, if s < 0 then 0 else if s > 5 then 5 else s);
  }
}
