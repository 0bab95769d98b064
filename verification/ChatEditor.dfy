/** The line editor and the text channel of CoopChat.cpp.  The class keeps the typed line as bytes; the
    specification keeps it as a list of Unicode scalars. */
module ChatEditor {
  import opened SerialSequence
  import opened Utf8
  import opened ChatText

  const MAX_LINES: nat := 32

  const KEY_BACK := 0x08
  const KEY_RETURN := 0x0d
  const KEY_ESCAPE := 0x1b
  const KEY_CHAT := 0xdc

  datatype Kind = KeyDown | KeyUp | Character | OtherMessage

  /** A native window message; `key` is the low word of wParam, `repeated` is bit 30 of lParam. */
  datatype Message = Message(kind: Kind, key: int, repeated: bool)

  /** The wire packet: a fixed buffer and the length of the text in it. */
  datatype TextPacket = TextPacket(source: nat, sequence: Serial, length: nat, text: Text)

  datatype Line = Line(user: string, text: Text)

  datatype Chat = Chat(
    account: nat, connected: bool, hasSender: bool, open: bool, ignoreNext: bool, pending: int,
    typed: seq<Scalar>, sequence: Serial, last: map<nat, Serial>, lines: seq<Line>)

  datatype Reaction = Reaction(chat: Chat, handled: bool, sent: Option<TextPacket>)

  predicate IsHigh(unit: int) { 0xd800 <= unit <= 0xdbff }

  predicate IsLow(unit: int) { 0xdc00 <= unit <= 0xdfff }

  /** What every typed line satisfies. */
  ghost predicate LineOk(typed: seq<Scalar>) {
    AllPrintable(typed) && |typed| <= MAX_CHARS && |EncodeAll(typed)| <= MAX_BYTES
  }

  ghost predicate ChatOk(c: Chat) {
    LineOk(c.typed) && (c.pending == 0 || IsHigh(c.pending))
  }

  // ---- The specification ---------------------------------------------------------------------

  /** Appends one scalar when the longer line is still a proper line. */
  function Append(typed: seq<Scalar>, c: Scalar): seq<Scalar> {
    if IsPrintable(c) && |typed| < MAX_CHARS && |EncodeAll(typed + [c])| <= MAX_BYTES then typed + [c] else typed
  }

  /** One UTF-16 unit: a high surrogate waits for its low half, a lone half disappears. */
  function TypeUnit(c: Chat, unit: int): Chat
    requires 0 <= unit <= 0xffff && (c.pending == 0 || IsHigh(c.pending))
  {
    if IsHigh(unit) then c.(pending := unit)
    else if IsLow(unit) then
      if c.pending == 0 then c
      else c.(typed := Append(c.typed, CombineSurrogate(c.pending, unit)), pending := 0)
    else c.(typed := Append(c.typed, unit), pending := 0)
  }

  function EraseLast(c: Chat): Chat {
    if c.typed == [] then c else c.(typed := c.typed[..|c.typed| - 1])
  }

  function Padded(text: Text): Text
    requires |text| <= MAX_BYTES
  {
    text + seq(MAX_BYTES - |text|, i => 0)
  }

  function ShownName(user: string): string {
    if user == "" then "Player" else user
  }

  function LastLines(lines: seq<Line>): seq<Line> {
    if |lines| <= MAX_LINES then lines else lines[|lines| - MAX_LINES..]
  }

  function MakePacket(c: Chat, text: Text): TextPacket
    requires |text| <= MAX_BYTES
  {
    TextPacket(c.account, Next(c.sequence), |text|, Padded(text))
  }

  /** Sends a text that is already within the limits. */
  function SendLimited(c: Chat, text: Text, user: string, sendOk: bool): Reaction
    requires |text| <= MAX_BYTES
  {
    if !c.connected || c.account == 0 || !c.hasSender || text == [] then Reaction(c, false, None)
    else if !sendOk then Reaction(c.(sequence := Next(c.sequence)), false, None)
    else
      Reaction(c.(sequence := Next(c.sequence), lines := LastLines(c.lines + [Line(user, text)]),
               open := false, typed := [], pending := 0),
               true, Some(MakePacket(c, text)))
  }

  function Submit(c: Chat, user: string, sendOk: bool): Reaction
    requires |EncodeAll(c.typed)| <= MAX_BYTES
  {
    if c.typed == [] then Reaction(c.(open := false), true, None)
    else SendLimited(c, EncodeAll(c.typed), user, sendOk)
  }

  function OnMessage(c: Chat, m: Message, user: string, sendOk: bool): Reaction
    requires ChatOk(c) && 0 <= m.key <= 0xffff
  {
    if !c.connected then Reaction(c, false, None)
    else if m.kind == Character && c.ignoreNext then Reaction(c.(ignoreNext := false), true, None)
    else if !c.open then
      if m.kind == KeyDown && m.key == KEY_CHAT && !m.repeated then
        Reaction(c.(open := true, ignoreNext := true, pending := 0), true, None)
      else Reaction(c, false, None)
    else
      match m.kind
      case OtherMessage => Reaction(c, false, None)
      case KeyUp => Reaction(c, true, None)
      case KeyDown =>
        if m.key == KEY_ESCAPE then Reaction(c.(open := false, typed := [], pending := 0), true, None)
        else if m.key == KEY_RETURN then Submit(c.(ignoreNext := true), user, sendOk).(handled := true)
        else Reaction(c, true, None)
      case Character =>
        if m.key == KEY_RETURN || m.key == KEY_ESCAPE then Reaction(c, true, None)
        else if m.key == KEY_BACK then Reaction(EraseLast(c), true, None)
        else if m.key >= 0x20 && m.key != 0x7f then Reaction(TypeUnit(c, m.key), true, None)
        else Reaction(c, true, None)
  }

  ghost predicate Accepts(last: map<nat, Serial>, p: TextPacket) {
    && p.source != 0 && p.sequence != 0 && 0 < p.length <= MAX_BYTES
    && !(p.source in last && IsStaleOrDuplicate(p.sequence, last[p.source]))
    && p.length <= |p.text| && IsPrintableText(p.text[..p.length]) && |Scan(p.text[..p.length], p.length)| <= MAX_CHARS
  }

  // ---- The line stays a line -----------------------------------------------------------------

  lemma EraseKeepsLine(c: Chat)
    requires ChatOk(c)
    ensures ChatOk(EraseLast(c))
  {
    if c.typed != [] {
      LongerEncodesLonger(c.typed[..|c.typed| - 1], c.typed);
    }
  }

  lemma TypeUnitKeepsLine(c: Chat, unit: int)
    requires ChatOk(c) && 0 <= unit <= 0xffff
    ensures ChatOk(TypeUnit(c, unit))
  {
    hide Encode, EncodeAll;
  }

  lemma SubmitKeepsLine(c: Chat, user: string, sendOk: bool)
    requires ChatOk(c)
    ensures ChatOk(Submit(c, user, sendOk).chat)
  {
    assert LineOk([]);
    hide Encode, EncodeAll, LineOk;
  }

  lemma KeyKeepsChat(c: Chat, m: Message, user: string, sendOk: bool)
    requires ChatOk(c) && 0 <= m.key <= 0xffff && m.kind == KeyDown
    ensures ChatOk(OnMessage(c, m, user, sendOk).chat)
  {
    SubmitKeepsLine(c.(ignoreNext := true), user, sendOk);
    assert LineOk([]);
    hide Encode, EncodeAll, LineOk, Submit;
  }

  lemma CharacterKeepsChat(c: Chat, m: Message, user: string, sendOk: bool)
    requires ChatOk(c) && 0 <= m.key <= 0xffff && m.kind != KeyDown
    ensures ChatOk(OnMessage(c, m, user, sendOk).chat)
  {
    EraseKeepsLine(c);
    TypeUnitKeepsLine(c, m.key);
    hide Encode, EncodeAll, LineOk, EraseLast, TypeUnit;
  }

  lemma MessageKeepsChat(c: Chat, m: Message, user: string, sendOk: bool)
    requires ChatOk(c) && 0 <= m.key <= 0xffff
    ensures ChatOk(OnMessage(c, m, user, sendOk).chat)
  {
    hide *;
    if m.kind == KeyDown {
      KeyKeepsChat(c, m, user, sendOk);
    } else {
      CharacterKeepsChat(c, m, user, sendOk);
    }
  }

  /** One message changes at most the last character of the line: it appends one scalar (only a character
      message), removes the last one (only a backspace character), or closes the line. */
  lemma MessageEditsOneScalar(c: Chat, m: Message, user: string, sendOk: bool)
    requires ChatOk(c) && 0 <= m.key <= 0xffff
    ensures var t := OnMessage(c, m, user, sendOk).chat.typed;
            && (m.kind != Character ==> t == c.typed || t == [])
            && (m.kind == Character && m.key == KEY_BACK && c.connected && c.open && !c.ignoreNext && c.typed != []
                ==> t + [c.typed[|c.typed| - 1]] == c.typed)
            && (m.kind == Character && m.key != KEY_BACK
                ==> t == c.typed || (|t| == |c.typed| + 1 && t[..|c.typed|] == c.typed))
  {
    hide EncodeAll;
  }

  function TypeAll(c: Chat, ms: seq<Message>, user: string): Chat
    requires ChatOk(c) && forall i :: 0 <= i < |ms| ==> 0 <= ms[i].key <= 0xffff
    decreases ms
  {
    if ms == [] then c
    else
      MessageKeepsChat(c, ms[0], user, true);
      TypeAll(OnMessage(c, ms[0], user, true).chat, ms[1..], user)
  }

  /** The two window messages that a keyboard makes of one scalar. */
  function Keystrokes(s: Scalar): (ms: seq<Message>)
    ensures forall i :: 0 <= i < |ms| ==> 0 <= ms[i].key <= 0xffff
  {
    if s < 0x10000 then [Message(Character, s, false)]
    else
      [Message(Character, 0xd800 + (s - 0x10000) / 0x400, false),
       Message(Character, 0xdc00 + (s - 0x10000) % 0x400, false)]
  }

  /** Typing a printable scalar on an open line with room appends exactly that scalar, surrogate pairs included. */
  lemma TypingAppends(c: Chat, s: Scalar, user: string)
    requires ChatOk(c) && c.connected && c.open && !c.ignoreNext
    requires IsPrintable(s)
    ensures TypeAll(c, Keystrokes(s), user) == c.(typed := Append(c.typed, s), pending := 0)
  {
    hide Encode, EncodeAll;
    if s >= 0x10000 {
      CombineUndoesSplit(s);
      MessageKeepsChat(c, Keystrokes(s)[0], user, true);
      var d := OnMessage(c, Keystrokes(s)[0], user, true).chat;
      assert d == c.(pending := Keystrokes(s)[0].key);
      assert Keystrokes(s)[1..] == [Keystrokes(s)[1]];
      assert TypeAll(d, [Keystrokes(s)[1]], user) == OnMessage(d, Keystrokes(s)[1], user, true).chat;
    }
  }

  // ---- From the sender's keyboard to the receiver's list of scalars --------------------------

  /** Nothing newer from this sender has been seen. */
  predicate Newest(last: map<nat, Serial>, p: TextPacket) {
    p.source in last ==> last[p.source] == 0 || IsAfter(p.sequence, last[p.source])
  }

  lemma AnyTypingKeepsChat(c: Chat, ms: seq<Message>, user: string)
    requires ChatOk(c) && forall i :: 0 <= i < |ms| ==> 0 <= ms[i].key <= 0xffff
    ensures ChatOk(TypeAll(c, ms, user))
    decreases ms
  {
    hide ChatOk, OnMessage;
    if ms != [] {
      MessageKeepsChat(c, ms[0], user, true);
      AnyTypingKeepsChat(OnMessage(c, ms[0], user, true).chat, ms[1..], user);
    }
  }

  /** Whatever was typed, the submitted packet is accepted by every receiver that has seen nothing newer, and
      its bytes decode to exactly the scalars on the line. */
  lemma SubmittedLineArrives(start: Chat, ms: seq<Message>, user: string, last: map<nat, Serial>)
    requires ChatOk(start) && forall i :: 0 <= i < |ms| ==> 0 <= ms[i].key <= 0xffff
    ensures ChatOk(TypeAll(start, ms, user))
    ensures var c := TypeAll(start, ms, user);
            c.connected && c.account != 0 && c.hasSender && c.typed != [] ==>
              var r := Submit(c, user, true);
              && r.sent.Some? && r.chat.typed == [] && !r.chat.open
              && var p := r.sent.value;
              && (Newest(last, p) ==> Accepts(last, p))
              && p.length <= |p.text| == MAX_BYTES && Scan(p.text[..p.length], MAX_CHARS) == c.typed
  {
    AnyTypingKeepsChat(start, ms, user);
    var c := TypeAll(start, ms, user);
    if c.typed != [] && c.account != 0 {
      EncodedLength(c.typed);
      TextArrives(c, EncodeAll(c.typed), user, last);
      ScanOfEncoded(c.typed, MAX_CHARS);
      ScanOfEncoded(c.typed, |EncodeAll(c.typed)|);
      assert IsPrintableText(EncodeAll(c.typed));
    }
    hide TypeAll, Scan, Encode, EncodeAll;
  }

  lemma TextArrives(c: Chat, text: Text, user: string, last: map<nat, Serial>)
    requires text != [] && |text| <= MAX_BYTES && c.account != 0
    ensures var p := MakePacket(c, text);
            && p.length <= |p.text| == MAX_BYTES && p.text[..p.length] == text
            && (Newest(last, p) ==> (Accepts(last, p) <==> IsPrintableText(text) && |Scan(text, |text|)| <= MAX_CHARS))
  {
    assert Padded(text)[..|text|] == text;
  }

  /** SendText on any text: the receiver accepts the packet exactly when the truncation left something and did
      not cut a character in two. */
  lemma SentTextAcceptedExactly(c: Chat, text: Text, user: string, last: map<nat, Serial>)
    requires c.connected && c.account != 0 && c.hasSender && Limit(text) != []
    ensures var r := SendLimited(c, Limit(text), user, true);
            && r.sent.Some?
            && (Newest(last, r.sent.value) ==> (Accepts(last, r.sent.value) <==> !CutsCharacter(text)))
  {
    hide Scan, Encode, EncodeAll;
    var limited := Limit(text);
    TextArrives(c, limited, user, last);
    LimitIsSoundExactlyWithoutCut(text);
    if !CutsCharacter(text) {
      var ss, found := Scan(text, MAX_CHARS), Scan(limited, |limited|);
      PrintableTextIsScanned(limited);
      ScanOfEncoded(ss, |ss| + |limited|);
      ScanIsLongest(EncodeAll(ss), |ss| + |limited|, found);
    }
  }

  /** Remembering a packet refuses it the second time, and does not refuse one that was sent up to half a
      serial cycle later. */
  lemma RememberedPacket(last: map<nat, Serial>, p: TextPacket, q: TextPacket, steps: nat)
    requires p.sequence != 0 && q.source == p.source
    requires q.sequence == Advanced(p.sequence, steps) && 1 <= steps <= HALF_RANGE
    ensures !Accepts(last[p.source := p.sequence], p)
    ensures Newest(last[p.source := p.sequence], q)
  {
    AdvancedClosedForm(p.sequence, steps);
    IsAfterCountsAdvances(q.sequence, p.sequence);
  }

  // ---- The object ----------------------------------------------------------------------------

  class CoopChat {
    var accountToken: nat
    var username: string
    var connected: bool
    var hasSender: bool
    var chatOpen: bool
    var ignoreNextChar: bool
    var textSequence: Serial
    var pendingHighSurrogate: int
    var input: Text
    var chatLines: seq<Line>
    var lastTextSequences: map<nat, Serial>
    /** The scalars the input encodes. */
    ghost var typed: seq<Scalar>

    ghost function View(): Chat
      reads this
    {
      Chat(accountToken, connected, hasSender, chatOpen, ignoreNextChar, pendingHighSurrogate, typed,
           textSequence, lastTextSequences, chatLines)
    }

    ghost predicate Valid()
      reads this
    {
      input == EncodeAll(typed) && ChatOk(View()) && |chatLines| <= MAX_LINES
    }

    constructor (account: nat, user: string, hasSender: bool)
      ensures Valid()
      ensures View() == Chat(account, false, hasSender, false, false, 0, [], 0, map[], []) && username == user
    {
      accountToken, username, connected, this.hasSender := account, user, false, hasSender;
      chatOpen, ignoreNextChar, textSequence, pendingHighSurrogate := false, false, 0, 0;
      input, chatLines, lastTextSequences, typed := [], [], map[], [];
    }

    method SetConnected(now: bool)
      requires Valid()
      modifies this
      ensures Valid()
      ensures View() == if old(connected) == now then old(View())
                        else if now then old(View()).(connected := true)
                        else old(View()).(connected := false, open := false, typed := [], pending := 0,
                                          ignoreNext := false)
    {
      if connected == now {
        return;
      }
      connected := now;
      if !now {
        chatOpen := false;
        ClearInput();
        ignoreNextChar := false;
      }
    }

    method ClearInput()
      modifies this`input, this`pendingHighSurrogate, this`typed
      ensures View() == old(View()).(typed := [], pending := 0) && input == [] == EncodeAll([])
    {
      input := [];
      pendingHighSurrogate := 0;
      typed := [];
    }

    /** Keeps the longer line when it is still a proper line. */
    method TryAppend(codepoint: Scalar)
      requires Valid()
      modifies this`input, this`typed
      ensures Valid() && View() == old(View()).(typed := Append(old(typed), codepoint))
    {
      hide Scan, Encode;
      var encoded := WideCharToUtf8(codepoint);
      var candidate := input + encoded;
      EncodeAllAppend(typed, codepoint);
      if |candidate| > MAX_BYTES {
        return;
      }
      var limited := LimitUtf8(candidate);
      CandidateFits(typed, codepoint);
      if |limited| != |candidate| {
        return;
      }
      input := candidate;
      typed := typed + [codepoint];
    }

    method AppendInputUtf16(value: int)
      requires Valid() && 0 <= value <= 0xffff
      modifies this`input, this`typed, this`pendingHighSurrogate
      ensures Valid() && View() == TypeUnit(old(View()), value)
    {
      hide EncodeAll;
      if 0xd800 <= value <= 0xdbff {
        if pendingHighSurrogate != 0 {
          AppendLoneSurrogate();
        }
        pendingHighSurrogate := value;
        return;
      }
      if 0xdc00 <= value <= 0xdfff {
        if pendingHighSurrogate != 0 {
          TryAppend(CombineSurrogate(pendingHighSurrogate, value));
          pendingHighSurrogate := 0;
        }
        return;
      }
      if pendingHighSurrogate != 0 {
        AppendLoneSurrogate();
        pendingHighSurrogate := 0;
      }
      TryAppend(value);
    }

    /** A lone surrogate encodes to nothing. */
    method AppendLoneSurrogate()
      requires IsHigh(pendingHighSurrogate)
      modifies this`input
      ensures input == old(input)
    {
      var encoded := WideCharToUtf8(pendingHighSurrogate);
      input := input + encoded;
    }

    /** Backspace: drop tail bytes until the lead byte of the last character is gone too. */
    method EraseLastCharacter()
      requires Valid()
      modifies this`input, this`typed
      ensures Valid() && View() == EraseLast(old(View()))
    {
      hide Encode;
      EraseKeepsLine(View());
      EncodedLength(typed);
      if input == [] {
        return;
      }
      ghost var last := |typed| - 1;
      ghost var kept := EncodeAll(typed[..last]);
      WidthOfEncode(typed[last]);
      assert input == kept + Encode(typed[last]);
      var offset := |input| - 1;
      while offset > 0 && input[offset] / 64 == 2
        invariant |kept| <= offset < |input|
      {
        assert input[offset] == Encode(typed[last])[offset - |kept|];
        offset := offset - 1;
      }
      assert input[offset] == Encode(typed[last])[offset - |kept|];
      input := input[..offset];
      typed := typed[..last];
    }

    method AddChatLine(user: string, text: Text)
      modifies this`chatLines
      ensures chatLines == if text == [] then old(chatLines)
              else LastLines(old(chatLines) + [Line(ShownName(user), text)])
    {
      if text == [] {
        return;
      }
      chatLines := chatLines + [Line(ShownName(user), text)];
      ghost var all := chatLines;
      while |chatLines| > MAX_LINES
        invariant |chatLines| <= |all| && chatLines == all[|all| - |chatLines|..]
        invariant |all| > MAX_LINES ==> |chatLines| >= MAX_LINES
        invariant |all| <= MAX_LINES ==> chatLines == all
      {
        chatLines := chatLines[1..];
      }
    }

    method SendText(text: Text, sendOk: bool) returns (ok: bool, sent: Option<TextPacket>)
      requires Valid()
      modifies this
      ensures Valid() && Reaction(View(), ok, sent) ==
              SendLimited(old(View()), Limit(text), ShownName(username), sendOk)
      ensures username == old(username)
    {
      hide Scan, Encode, EncodeAll, LongestPrefix;
      if !connected || accountToken == 0 || !hasSender {
        return false, None;
      }
      var limited := LimitUtf8(text);
      if limited == [] {
        return false, None;
      }
      textSequence := Next(textSequence);
      var packet := TextPacket(accountToken, textSequence, |limited|, limited + seq(MAX_BYTES - |limited|, i => 0));
      if !sendOk {
        return false, None;
      }
      AddChatLine(username, limited);
      chatOpen := false;
      ClearInput();
      return true, Some(packet);
    }

    method SubmitInput(sendOk: bool) returns (sent: Option<TextPacket>)
      requires Valid()
      modifies this
      ensures Valid()
      ensures var r := Submit(old(View()), ShownName(old(username)), sendOk); View() == r.chat && sent == r.sent
      ensures username == old(username)
    {
      hide Scan, Encode;
      EncodedLength(typed);
      if input != [] {
        ScanOfEncoded(typed, MAX_CHARS);
        var _, packet := SendText(input, sendOk);
        sent := packet;
      } else {
        chatOpen := false;
        sent := None;
      }
    }

    /** The window procedure does to the list of scalars what OnMessage says. */
    method HandleNativeWindowMessage(m: Message, sendOk: bool) returns (handled: bool, sent: Option<TextPacket>)
      requires Valid() && 0 <= m.key <= 0xffff
      modifies this
      ensures Valid() && Reaction(View(), handled, sent) == OnMessage(old(View()), m, ShownName(old(username)), sendOk)
    {
      hide EncodeAll, TypeUnit, EraseLast;
      sent := None;
      if !connected {
        return false, None;
      }
      var keyDown := m.kind == KeyDown;
      var keyUp := m.kind == KeyUp;
      var chatOpenKey := m.key == KEY_CHAT;
      if m.kind == Character && ignoreNextChar {
        ignoreNextChar := false;
        return true, None;
      }
      if !chatOpen && keyDown && chatOpenKey && !m.repeated {
        chatOpen := true;
        ignoreNextChar := true;
        pendingHighSurrogate := 0;
        return true, None;
      }
      if !chatOpen {
        return false, None;
      }
      if !keyDown && !keyUp && m.kind != Character {
        return false, None;
      }
      if keyDown && chatOpenKey {
        return true, None;
      }
      if keyDown {
        if m.key == KEY_ESCAPE {
          chatOpen := false;
          ClearInput();
          return true, None;
        }
        if m.key == KEY_RETURN {
          ignoreNextChar := true;
          sent := SubmitInput(sendOk);
          return true, sent;
        }
        if m.key == KEY_BACK || 0x23 <= m.key <= 0x28 || m.key == 0x2e {
          return true, None;
        }
      }
      if m.kind == Character {
        if m.key == KEY_RETURN || m.key == KEY_ESCAPE {
          return true, None;
        }
        if m.key == KEY_BACK {
          EraseLastCharacter();
          return true, None;
        }
        if m.key >= 0x20 && m.key != 0x7f {
          AppendInputUtf16(m.key);
        }
        return true, None;
      }
      handled := keyDown || keyUp;
    }

    method CanAcceptTextPacket(packet: TextPacket) returns (ok: bool)
      requires |packet.text| == MAX_BYTES
      ensures ok <==> Accepts(lastTextSequences, packet)
    {
      hide Scan, Encode;
      if packet.source == 0 || packet.sequence == 0 || packet.length == 0 || packet.length > MAX_BYTES {
        return false;
      }
      if packet.source in lastTextSequences && IsStaleOrDuplicate(packet.sequence, lastTextSequences[packet.source]) {
        return false;
      }
      var text := packet.text[..packet.length];
      var valid, characters := IsValidUtf8(text);
      if valid {
        PrintableTextIsScanned(text);
        EncodedLength(Scan(text, |text|));
      }
      ok := valid && characters != 0 && characters <= MAX_CHARS;
    }

    method HandleTextPacket(packet: TextPacket, user: string) returns (ok: bool)
      requires Valid() && |packet.text| == MAX_BYTES
      modifies this
      ensures Valid() && (ok <==> Accepts(old(lastTextSequences), packet))
      ensures View() == if !ok then old(View())
                        else old(View()).(last := old(lastTextSequences)[packet.source := packet.sequence],
                             lines := LastLines(old(chatLines) + [Line(ShownName(user), packet.text[..packet.length])]))
    {
      ok := CanAcceptTextPacket(packet);
      if !ok {
        return;
      }
      lastTextSequences := lastTextSequences[packet.source := packet.sequence];
      AddChatLine(ShownName(user), packet.text[..packet.length]);
    }

    method RemoveSender(source: nat)
      requires Valid()
      modifies this`lastTextSequences
      ensures Valid() && View() == old(View()).(last := old(lastTextSequences) - {source})
    {
      lastTextSequences := lastTextSequences - {source};
    }
  }

  lemma CandidateFits(typed: seq<Scalar>, c: Scalar)
    requires LineOk(typed) && |EncodeAll(typed + [c])| <= MAX_BYTES
    ensures |Limit(EncodeAll(typed + [c]))| == |EncodeAll(typed + [c])| <==> IsPrintable(c) && |typed| < MAX_CHARS
    ensures |Limit(EncodeAll(typed + [c]))| == |EncodeAll(typed + [c])| ==> Append(typed, c) == typed + [c]
  {
    hide Scan, Encode;
    var longer := typed + [c];
    var text := EncodeAll(longer);
    ScanIsPrefix(text, MAX_CHARS);
    if IsPrintable(c) && |typed| < MAX_CHARS {
      assert AllPrintable(longer);
      ScanOfEncoded(longer, MAX_CHARS);
    } else {
      EncodeAllAppend(typed, c);
      if |LongestPrefix(text)| == |text| {
        var found := Scan(text, MAX_CHARS);
        assert LongestPrefix(text) == text;
        LineIsWhole(typed, c, found);
      }
    }
  }

  /** Encoded text has only one reading, printable or not. */
  lemma LineIsWhole(typed: seq<Scalar>, c: Scalar, found: seq<Scalar>)
    requires AllPrintable(typed) && AllPrintable(found) && EncodeAll(found) == EncodeAll(typed + [c])
    ensures found == typed + [c]
  {
    hide Scan, Encode, EncodeAll;
    var limit := |found| + |typed|;
    EncodeAllAppend(typed, c);
    ScanOfEncoded(found, limit);
    ScanIsLongest(EncodeAll(found), limit, typed);
    var more := found[|typed|..];
    assert found == typed + more;
    EncodeAllConcat(typed, more);
    assert EncodeAll(more) == EncodeAll(found)[|EncodeAll(typed)|..] == Encode(c);
    EncodedLength(more);
    var d := more[0];
    assert more == [d] + more[1..];
    EncodeAllPrepend(d, more[1..]);
    EncodePrefixFree(c, d);
    EncodedLength(more[1..]);
  }
}
