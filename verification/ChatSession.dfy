/** Whole sessions at the keyboard: from the key that opens the line to the packet that leaves, and the window of the
    newest lines. */
module ChatSession {
  import opened SerialSequence
  import opened Utf8
  import opened ChatText
  import opened ChatEditor

  // ---- Opening, typing, closing --------------------------------------------------------------

  const CHAT_KEY: Message := Message(KeyDown, 0xdc, false)
  const RETURN_KEY: Message := Message(KeyDown, 0x0d, false)
  const ESCAPE_KEY: Message := Message(KeyDown, 0x1b, false)

  predicate KeysOk(ms: seq<Message>) {
    forall i :: 0 <= i < |ms| ==> 0 <= ms[i].key <= 0xffff
  }

  lemma {:induction false} TypeAllAppend(c: Chat, ms: seq<Message>, ns: seq<Message>, user: string)
    requires ChatOk(c) && KeysOk(ms) && KeysOk(ns)
    ensures ChatOk(TypeAll(c, ms, user)) && TypeAll(c, ms + ns, user) == TypeAll(TypeAll(c, ms, user), ns, user)
    decreases ms
  {
    AnyTypingKeepsChat(c, ms, user);
    hide ChatOk, OnMessage;
    if ms == [] {
      assert ms + ns == ns;
    } else {
      assert (ms + ns)[0] == ms[0] && (ms + ns)[1..] == ms[1..] + ns;
      MessageKeepsChat(c, ms[0], user, true);
      TypeAllAppend(OnMessage(c, ms[0], user, true).chat, ms[1..], ns, user);
    }
  }

  /** A closed chat takes nothing but the opening key, and that not while it is held down; a chat that is not connected
      takes nothing at all. */
  lemma ClosedChatTakesOnlyItsKey(c: Chat, m: Message, user: string, sendOk: bool)
    requires ChatOk(c) && 0 <= m.key <= 0xffff && !c.ignoreNext && (!c.open || !c.connected)
    ensures var r := OnMessage(c, m, user, sendOk);
            && r.sent == None
            && (r.handled <==> c.connected && m == CHAT_KEY)
            && r.chat == if r.handled then c.(open := true, ignoreNext := true, pending := 0) else c
  {
  }

  /** The character that the opening key makes is not typed. */
  lemma OpeningKeyIsNotTyped(c: Chat, x: Message, user: string)
    requires ChatOk(c) && c.connected && !c.open && !c.ignoreNext
    requires x.kind == Character && 0 <= x.key <= 0xffff
    ensures TypeAll(c, [CHAT_KEY, x], user) == c.(open := true, pending := 0)
  {
    assert [CHAT_KEY, x][1..] == [x] && [x][1..] == [];
    var d := OnMessage(c, CHAT_KEY, user, true).chat;
    assert TypeAll(d, [x], user) == TypeAll(OnMessage(d, x, user, true).chat, [], user);
  }

  /** Escape leaves without sending and drops the line. */
  lemma EscapeDropsTheLine(c: Chat, user: string, sendOk: bool)
    requires ChatOk(c) && c.connected && c.open
    ensures OnMessage(c, ESCAPE_KEY, user, sendOk) == Reaction(c.(open := false, typed := [], pending := 0), true, None)
  {
  }

  /** On an open line every key and character is taken, so that the game does not see it, and any other message is left
      to the game; a control character other than backspace, such as the one of Return, is not typed. */
  lemma OpenChatTakesTheKeys(c: Chat, m: Message, user: string, sendOk: bool)
    requires ChatOk(c) && 0 <= m.key <= 0xffff && c.connected && c.open
    ensures var r := OnMessage(c, m, user, sendOk);
            && (r.handled <==> m.kind != OtherMessage)
            && (m.kind == KeyUp || m.kind == OtherMessage ==> r.chat == c && r.sent == None)
            && (m.kind == KeyDown && m.key !in {0x0d, 0x1b} ==> r.chat == c && r.sent == None)
            && (m.kind == Character && (m.key == 0x7f || (m.key < 0x20 && m.key != 0x08)) ==>
                  r.chat == c.(ignoreNext := false) && r.sent == None)
  {
    hide SendLimited, EraseLast, TypeUnit, EncodeAll;
  }

  /** Return on an empty line only closes it. */
  lemma EmptyLineOnlyCloses(c: Chat, user: string, sendOk: bool)
    requires ChatOk(c) && c.connected && c.open && c.typed == []
    ensures OnMessage(c, RETURN_KEY, user, sendOk) == Reaction(c.(open := false, ignoreNext := true), true, None)
  {
  }

  /** The messages of a whole text, and its line. */
  function Keyboard(ss: seq<Scalar>): (ms: seq<Message>)
    ensures KeysOk(ms)
  {
    if ss == [] then [] else Keyboard(ss[..|ss| - 1]) + Keystrokes(ss[|ss| - 1])
  }

  lemma LineOkBefore(ss: seq<Scalar>)
    requires LineOk(ss) && ss != []
    ensures LineOk(ss[..|ss| - 1]) && IsPrintable(ss[|ss| - 1])
    ensures Append(ss[..|ss| - 1], ss[|ss| - 1]) == ss
  {
    var before := ss[..|ss| - 1];
    assert ss == before + [ss[|ss| - 1]];
    LongerEncodesLonger(before, ss);
    hide Encode, EncodeAll;
  }

  /** Typing a text that fits on an empty open line leaves exactly that text on it. */
  lemma {:induction false} TypingGivesTheText(c: Chat, ss: seq<Scalar>, user: string)
    requires ChatOk(c) && c.connected && c.open && !c.ignoreNext && c.typed == [] && c.pending == 0
    requires LineOk(ss)
    ensures TypeAll(c, Keyboard(ss), user) == c.(typed := ss)
  {
    if ss != [] {
      var before, last := ss[..|ss| - 1], ss[|ss| - 1];
      LineOkBefore(ss);
      TypingGivesTheText(c, before, user);
      TypeAllAppend(c, Keyboard(before), Keystrokes(last), user);
      var d := TypeAll(c, Keyboard(before), user);
      TypingAppends(d, last, user);
      hide TypeAll, LineOk, Append, Keystrokes, ChatOk;
    }
  }

  /** From a closed chat: the opening key with the character it makes, the keys of a text, and Return. The packet that
      leaves carries exactly the text to every receiver that has seen nothing newer; the line is closed and empty, and
      the character that Return makes is not typed into anything either. */
  lemma SessionSendsTheText(c: Chat, x: Message, ss: seq<Scalar>, user: string, last: map<nat, Serial>)
    requires ChatOk(c) && c.connected && !c.open && !c.ignoreNext && c.typed == [] && c.account != 0 && c.hasSender
    requires x.kind == Character && 0 <= x.key <= 0xffff && ss != [] && LineOk(ss)
    ensures ChatOk(TypeAll(c, [CHAT_KEY, x] + Keyboard(ss), user))
    ensures var d := TypeAll(c, [CHAT_KEY, x] + Keyboard(ss), user);
            var r := OnMessage(d, RETURN_KEY, user, true);
            && r.sent.Some? && r.chat.typed == [] && !r.chat.open && ChatOk(r.chat)
            && r.sent.value.source == c.account
            && (Newest(last, r.sent.value) ==> Accepts(last, r.sent.value))
            && r.sent.value.length <= |r.sent.value.text|
            && Scan(r.sent.value.text[..r.sent.value.length], MAX_CHARS) == ss
            && OnMessage(r.chat, Message(Character, 0x0d, false), user, true) ==
               Reaction(r.chat.(ignoreNext := false), true, None)
  {
    OpeningKeyIsNotTyped(c, x, user);
    var begun := c.(open := true, pending := 0);
    assert ChatOk(begun);
    TypingGivesTheText(begun, ss, user);
    TypeAllAppend(c, [CHAT_KEY, x], Keyboard(ss), user);
    var d := begun.(typed := ss);
    AnyTypingKeepsChat(c, [CHAT_KEY, x] + Keyboard(ss), user);
    MessageKeepsChat(d, RETURN_KEY, user, true);
    assert TypeAll(d, [], user) == d;
    hide TypeAll, Scan, Encode, EncodeAll, LineOk, Keyboard;
    var ready := d.(ignoreNext := true);
    SubmittedLineArrives(ready, [], user, last);
    NothingTyped(ready, user);
  }

  lemma NothingTyped(c: Chat, user: string)
    requires ChatOk(c)
    ensures TypeAll(c, [], user) == c
  {
  }

  /** A half of a surrogate pair that has no partner disappears: a high one is replaced by the next high one and dropped
      by the next other character, which is typed as usual; a low one alone changes nothing. */
  lemma LoneHalvesDisappear(c: Chat, unit: int)
    requires ChatOk(c) && 0 <= unit <= 0xffff
    ensures 0xd800 <= unit <= 0xdbff ==> TypeUnit(c, unit) == c.(pending := unit)
    ensures 0xdc00 <= unit <= 0xdfff && c.pending == 0 ==> TypeUnit(c, unit) == c
    ensures !(0xd800 <= unit <= 0xdfff) ==> TypeUnit(c, unit) == c.(typed := Append(c.typed, unit), pending := 0)
  {
    hide Append;
  }

  // ---- Sending -------------------------------------------------------------------------------

  /** A text leaves exactly if the chat is connected, knows its account, has a sender, the text is not empty and the
      send succeeds. Then it is shown like any other line and the input is closed; a failed send costs a sequence and
      nothing else. */
  lemma TextLeavesExactly(c: Chat, text: Text, user: string, sendOk: bool)
    requires |text| <= MAX_BYTES
    ensures var r := SendLimited(c, text, user, sendOk);
            var ready := c.connected && c.account != 0 && c.hasSender && text != [];
            && (r.sent.Some? <==> ready && sendOk) && r.handled == r.sent.Some?
            && r.chat.sequence == (if ready then Next(c.sequence) else c.sequence)
            && (r.sent.Some? ==>
                  && r.sent.value.sequence == r.chat.sequence && r.sent.value.source == c.account
                  && r.sent.value.length == |text| && r.sent.value.text[..|text|] == text
                  && r.chat.lines == LastLines(c.lines + [Line(user, text)])
                  && !r.chat.open && r.chat.typed == [] && r.chat.pending == 0)
            && (r.sent == None ==> r.chat == c.(sequence := r.chat.sequence))
  {
    assert Padded(text)[..|text|] == text;
    hide LastLines;
  }

  lemma NamesAreShown(user: string)
    ensures ShownName(user) != "" && (user != "" ==> ShownName(user) == user) && ShownName("") == "Player"
  {
  }

  /** A receiver accepts exactly the packets with a sender and a sequence that is after the last one accepted from that
      sender, whose bytes are the encoding of one to 255 printable scalars. */
  lemma AcceptsExactly(last: map<nat, Serial>, p: TextPacket)
    requires |p.text| == MAX_BYTES
    ensures Accepts(last, p) <==>
              && p.source != 0 && p.sequence != 0
              && (p.source in last && last[p.source] != 0 ==> IsAfter(p.sequence, last[p.source]))
              && p.length <= |p.text|
              && exists ss :: AllPrintable(ss) && 1 <= |ss| <= 255 && EncodeAll(ss) == p.text[..p.length]
  {
    if p.length <= |p.text| {
      var text := p.text[..p.length];
      ReadExactly(text);
      hide Scan, EncodeAll, IsPrintableText;
    }
  }

  lemma ReadExactly(text: Text)
    ensures text != [] && IsPrintableText(text) && |Scan(text, |text|)| <= MAX_CHARS <==>
              exists ss :: AllPrintable(ss) && 1 <= |ss| <= 255 && EncodeAll(ss) == text
  {
    PrintableTextIsScanned(text);
    ScanIsPrefix(text, |text|);
    var found := Scan(text, |text|);
    if text != [] && IsPrintableText(text) && |found| <= MAX_CHARS {
      EncodedLength(found);
      assert AllPrintable(found) && EncodeAll(found) == text;
    }
    if ss :| AllPrintable(ss) && 1 <= |ss| <= 255 && EncodeAll(ss) == text {
      EncodedLength(ss);
      ScanOfEncoded(ss, |text|);
    }
    hide Encode;
  }

  // ---- The newest lines ----------------------------------------------------------------------

  /** The lines after adding them one by one. */
  function Shown(lines: seq<Line>): seq<Line> {
    if lines == [] then [] else LastLines(Shown(lines[..|lines| - 1]) + [lines[|lines| - 1]])
  }

  function Newest32(lines: seq<Line>): seq<Line> {
    if |lines| <= 32 then lines else lines[|lines| - 32..]
  }

  lemma WindowSlides(lines: seq<Line>, line: Line)
    ensures LastLines(Newest32(lines) + [line]) == Newest32(lines + [line])
  {
    var k := if |lines| <= 32 then 0 else |lines| - 32;
    assert Newest32(lines) == lines[k..];
    assert Newest32(lines) + [line] == (lines + [line])[k..];
    if |lines| >= 32 {
      assert (lines + [line])[k..][1..] == (lines + [line])[k + 1..];
    }
  }

  /** However many lines were added, the last thirty-two stay, in order. */
  lemma {:induction false} NewestLinesStay(lines: seq<Line>)
    ensures Shown(lines) == Newest32(lines)
  {
    if lines != [] {
      NewestLinesStay(lines[..|lines| - 1]);
      WindowSlides(lines[..|lines| - 1], lines[|lines| - 1]);
      assert lines == lines[..|lines| - 1] + [lines[|lines| - 1]];
      hide LastLines, Newest32;
    }
  }
}
