/** The webhook message built for each notification: fixed title,
    description, colour and mention flag per direction, the `content`
    mention rule, and the report-time field. */
module Webhook {
  import opened Events

  /** The settings the payload reads: the bot's display name and the
      optional user id to mention. */
  datatype Config = Config(botName: string, mention: string)

  /** The argument handed to the sending function for each direction. */
  datatype Message = Message(title: string, description: string, color: nat, mention: bool)

  function MessageFor(ev: Event, botName: string): (m: Message)
    ensures m.mention <==> ev == Down
    ensures m.color < 0x100_0000
    ensures ev == Down ==> m.title == "Down Alert!" && m.color == 16711680 == 0xFF_00_00
    ensures ev == Recovered ==> m.title == "All Systems Green" && m.color == 1170739 == 0x11_DD_33
    ensures ev == Down ==> m.description == "A problem has been detected with **" + botName + "**."
    ensures ev == Recovered ==> m.description == botName + " operation is back to normal."
    ensures Contains(m.description, botName)
  {
    match ev
    case Down =>
      var d := "A problem has been detected with **" + botName + "**.";
      assert OccursAt(d, botName, 35);
      Message("Down Alert!", d, 16711680, true)
    case Recovered =>
      var d := botName + " operation is back to normal.";
      assert OccursAt(d, botName, 0);
      Message("All Systems Green", d, 1170739, false)
  }

  /** `part` occurs in `text` starting at position `i`. */
  predicate OccursAt(text: string, part: string, i: nat)
  {
    i + |part| <= |text| && text[i..i + |part|] == part
  }

  predicate Contains(text: string, part: string)
  {
    exists i: nat | i <= |text| :: OccursAt(text, part, i)
  }

  /** The two directions can always be told apart by title and by colour. */
  lemma DirectionsDistinct(botName: string, otherName: string)
    ensures MessageFor(Down, botName).title != MessageFor(Recovered, otherName).title
    ensures MessageFor(Down, botName).color != MessageFor(Recovered, otherName).color
  {
  }

  /** The webhook `content`: a mention of the configured id when the message
      asks for one and an id is configured, otherwise empty. */
  function Content(mention: bool, mentionId: string): (c: string)
    ensures c == [] <==> !mention || mentionId == []
    ensures c != [] ==> c == "<@" + mentionId + ">"
  {
    if mention then (if mentionId != [] then "<@" + mentionId + ">" else "") else ""
  }

  /** Reads the mentioned id back out of a `content` string. */
  function MentionedId(content: string): (id: Option<string>)
  {
    if |content| >= 3 && content[..2] == "<@" && content[|content| - 1] == '>'
    then Some(content[2..|content| - 1])
    else None
  }

  /** The content carries a mention exactly when the flag is set and an id is
      configured, and then it mentions that id. */
  lemma ContentMentions(mention: bool, mentionId: string)
    ensures MentionedId(Content(mention, mentionId)) ==
      (if mention && mentionId != [] then Some(mentionId) else None)
    ensures Content(mention, mentionId) == [] <==> !mention || mentionId == []
  {
    if mention && mentionId != [] {
      var c := "<@" + mentionId + ">";
      assert c[..2] == "<@";
      assert c[2..|c| - 1] == mentionId;
    }
  }

  /** The report time in whole seconds: the millisecond timestamp divided by
      1000 and rounded down. */
  function Seconds(ms: nat): (s: nat)
    ensures s * 1000 <= ms < s * 1000 + 1000
  {
    ms / 1000
  }

  function DigitChar(d: nat): (c: char)
    requires d < 10
    ensures '0' <= c <= '9' && c as int - '0' as int == d
  {
    ('0' as int + d) as char
  }

  function DigitValue(c: char): (d: nat)
    requires '0' <= c <= '9'
    ensures d < 10 && DigitChar(d) == c
    ensures forall e: nat :: e < 10 && DigitChar(e) == c ==> e == d
  {
    (c as int - '0' as int) as nat
  }

  predicate IsDigits(s: string)
  {
    forall i :: 0 <= i < |s| ==> '0' <= s[i] <= '9'
  }

  /** The decimal rendering a template literal gives a non-negative integer. */
  function Decimal(n: nat): (s: string)
    ensures |s| >= 1 && IsDigits(s)
    ensures s[0] == '0' ==> n == 0 && s == "0"
  {
    if n < 10 then [DigitChar(n)] else Decimal(n / 10) + [DigitChar(n % 10)]
  }

  /** The value of a string of decimal digits. */
  function DigitsValue(s: string): nat
    requires IsDigits(s)
  {
    if s == [] then 0 else DigitsValue(s[..|s| - 1]) * 10 + DigitValue(s[|s| - 1])
  }

  /** Reads a decimal number; anything but a non-empty run of digits is
      rejected. */
  function ParseDecimal(s: string): (n: Option<nat>)
  {
    if s != [] && IsDigits(s) then Some(DigitsValue(s)) else None
  }

  lemma {:induction false} DecimalRoundTrip(n: nat)
    ensures ParseDecimal(Decimal(n)) == Some(n)
  {
    if n >= 10 {
      DecimalRoundTrip(n / 10);
      var s := Decimal(n);
      assert s[..|s| - 1] == Decimal(n / 10);
    } else {
      var s := Decimal(n);
      assert s == [DigitChar(n)];
      assert s[..0] == [];
      assert DigitsValue(s) == DigitsValue([]) * 10 + DigitValue(s[0]);
    }
  }

  /** The "Report Time" field value: a relative Discord timestamp
      `<t:SECONDS:R>`. */
  function ReportTime(ms: nat): (f: string)
    ensures |f| >= 7 && f[..3] == "<t:" && f[|f| - 3..] == ":R>"
    ensures f[3..|f| - 3] == Decimal(Seconds(ms))
  {
    "<t:" + Decimal(Seconds(ms)) + ":R>"
  }

  /** Reads the seconds back out of a report-time field. */
  function ReportedSeconds(field: string): (s: Option<nat>)
  {
    if |field| >= 6 && field[..3] == "<t:" && field[|field| - 3..] == ":R>"
    then ParseDecimal(field[3..|field| - 3])
    else None
  }

  lemma ReportTimeRoundTrip(ms: nat)
    ensures ReportedSeconds(ReportTime(ms)) == Some(Seconds(ms))
    ensures ReportedSeconds(ReportTime(ms)) == Some(ms / 1000)
  {
    DecimalRoundTrip(Seconds(ms));
  }

  datatype Field = Field(name: string, value: string)
  datatype Embed = Embed(title: string, description: string, color: nat, fields: seq<Field>)

  /** The JSON body posted to the webhook (the avatar URL is left out). */
  datatype Payload = Payload(username: string, content: string, embeds: seq<Embed>)

  /** The body posted for a message at time `ms` (milliseconds since the
      epoch). */
  function Post(m: Message, cfg: Config, ms: nat): (p: Payload)
    ensures p.username == cfg.botName + " Status"
    ensures |p.embeds| == 1
    ensures p.embeds[0].title == m.title && p.embeds[0].description == m.description
    ensures p.embeds[0].color == m.color
    ensures p.embeds[0].fields == [Field("Report Time", ReportTime(ms))]
    ensures p.content == Content(m.mention, cfg.mention)
  {
    Payload(cfg.botName + " Status", Content(m.mention, cfg.mention),
            [Embed(m.title, m.description, m.color, [Field("Report Time", ReportTime(ms))])])
  }

  /** The body posted for a notification. */
  function Notification(ev: Event, cfg: Config, ms: nat): (p: Payload)
    ensures |p.embeds| == 1 && p.embeds[0].title == MessageFor(ev, cfg.botName).title
    ensures p.embeds[0].color == MessageFor(ev, cfg.botName).color
    ensures p.content != [] <==> ev == Down && cfg.mention != []
  {
    Post(MessageFor(ev, cfg.botName), cfg, ms)
  }

  /** Only a down alert pages anyone: its content mentions the configured id
      when there is one, and a recovery's content is always empty. */
  lemma NotificationMentions(ev: Event, cfg: Config, ms: nat)
    ensures MentionedId(Notification(ev, cfg, ms).content) ==
      (if ev == Down && cfg.mention != [] then Some(cfg.mention) else None)
    ensures ev == Recovered ==> Notification(ev, cfg, ms).content == []
  {
    ContentMentions(MessageFor(ev, cfg.botName).mention, cfg.mention);
  }

  /** The report time of a notification gives back the detection time in
      whole seconds. */
  lemma NotificationReportTime(ev: Event, cfg: Config, ms: nat)
    ensures ReportedSeconds(Notification(ev, cfg, ms).embeds[0].fields[0].value) == Some(ms / 1000)
  {
    ReportTimeRoundTrip(ms);
  }
}
