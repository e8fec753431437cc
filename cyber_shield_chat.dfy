/**
 * The assistant chat panel: a side panel listing messages as cards, each
 * with a sender label coloured by severity, an optional severity meter and,
 * for the assistant's messages, a copy button. The copy button's
 * "Copied" state and the clipboard are not modelled.
 */
module CyberShieldChat {
  import opened Wrappers
  import opened Messages
  import opened Tones

  /** The colour of a card's sender label: the primary colour when there is
      no severity or it is 0 (both falsy), else by the severity's band. */
  function SeverityColor(severity: Option<int>): (t: Tone)
    ensures t == Destructive <==> severity.Some? && severity.value >= 4
    ensures t == Accent <==> severity.Some? && severity.value == 3
    ensures t == Secondary <==> severity.Some? && severity.value == 2
    ensures t == Primary <==> severity.None? || severity.value < 2
  {
    if severity.None? || severity.value == 0 then Primary
    else if severity.value >= 4 then Destructive
    else if severity.value >= 3 then Accent
    else if severity.value >= 2 then Secondary
    else Primary
  }

  /** The colour of lit bar `level` (1 to 5), fixed per level. */
  function LevelTone(level: int): Tone
  {
    if level >= 4 then Destructive else if level >= 3 then Accent else Secondary
  }

  /** The meter is drawn whenever a severity is present, 0 included; bar
      `level` is lit iff `level` is at most the severity. */
  function ChatMeter(severity: Option<int>): (r: Option<seq<Tone>>)
    ensures r.Some? <==> severity.Some?
    ensures r.Some? ==> |r.value| == 5
    ensures r.Some? ==> forall i :: 0 <= i < 5 ==>
      (r.value[i] != Muted <==> i + 1 <= severity.value)
      && (r.value[i] != Muted ==> r.value[i] == LevelTone(i + 1))
  {
    match severity
    case None => None
    case Some(s) =>
      var bars := seq(5, i requires 0 <= i < 5 => if i + 1 <= s then LevelTone(i + 1) else Muted);
      assert forall i :: 0 <= i < 5 ==> bars[i] == if i + 1 <= s then LevelTone(i + 1) else Muted;
      Some(bars)
  }

  function SenderLabel(m: Message): string
  {
    if m.role == Assistant then "CyberShield" else "You"
  }

  predicate ShowCopy(m: Message)
  {
    m.role == Assistant
  }

  /** One message card. */
  datatype Card = Card(sender: string, labelTone: Tone, content: string,
                       meter: Option<seq<Tone>>, copy: bool)

  /** The panel: nothing while closed, a placeholder for an empty list,
      else one card per message in order. */
  datatype Panel = Hidden | Placeholder | Cards(cards: seq<Card>)

  function CardOf(m: Message): Card
  {
    Card(SenderLabel(m), SeverityColor(m.severity), m.content, ChatMeter(m.severity), ShowCopy(m))
  }

  function ChatPanel(isOpen: bool, messages: seq<Message>): (p: Panel)
    ensures !isOpen <==> p == Hidden
    ensures p == Placeholder <==> isOpen && messages == []
    ensures p.Cards? ==> |p.cards| == |messages|
  {
    if !isOpen then Hidden
    else if messages == [] then Placeholder
    else Cards(seq(|messages|, i requires 0 <= i < |messages| => CardOf(messages[i])))
  }

  /** Each card shows its message's content, a copy button and the label
      "CyberShield" exactly for the assistant's messages, and a meter
      exactly when the message carries a severity. */
  lemma CardsFollowMessages(messages: seq<Message>, i: nat)
    requires messages != [] && i < |messages|
    ensures var c := ChatPanel(true, messages).cards[i];
      && c.content == messages[i].content
      && (c.sender == "CyberShield" <==> messages[i].role == Assistant)
      && (c.copy <==> messages[i].role == Assistant)
      && (c.meter.Some? <==> messages[i].severity.Some?)
  {
    assert "You" != "CyberShield";
  }
}
