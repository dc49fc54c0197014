/** The Architect chat: the HTML escaping `appendMessage` applies, the
    message log `handleChatSend` appends to, and the non-network branches of
    `generateOracleResponse` in `main.js`. */
module Chat {
  import opened Wrappers
  import opened Strings

  // ---------------------------------------------------------------------
  // Escaping

  /** The text `appendMessage` inserts in the two `custom.js` scripts:
      `<` then `>` are escaped, then newlines become `<br>`. */
  function Sanitize(s: string): string {
    ReplaceAll(ReplaceAll(ReplaceAll(s, '<', "&lt;"), '>', "&gt;"), '\n', "<br>")
  }

  /** The text `appendMessage` inserts in `main.js`: newlines only. */
  function BreakLines(s: string): string {
    ReplaceAll(s, '\n', "<br>")
  }

  /** The replacement each character receives. */
  function EscapeChar(c: char): string {
    if c == '<' then "&lt;" else if c == '>' then "&gt;" else if c == '\n' then "<br>" else [c]
  }

  function EscapeEach(s: string): string
    decreases |s|
  {
    if s == [] then [] else EscapeChar(s[0]) + EscapeEach(s[1..])
  }

  lemma {:induction false} EscapeEachConcat(a: string, b: string)
    ensures EscapeEach(a + b) == EscapeEach(a) + EscapeEach(b)
    decreases |a|
  {
    if a == [] {
      assert a + b == b;
    } else {
      assert (a + b)[1..] == a[1..] + b;
      EscapeEachConcat(a[1..], b);
    }
  }

  lemma ReplaceOne(c: char, x: char, r: string)
    ensures ReplaceAll([c], x, r) == if c == x then r else [c]
  {
    assert [c][1..] == [];
    var head := if c == x then r else [c];
    assert ReplaceAll([c], x, r) == head + ReplaceAll([], x, r);
    assert head + [] == head;
  }

  lemma SanitizeChar(c: char)
    ensures Sanitize([c]) == EscapeChar(c)
  {
    ReplaceOne(c, '<', "&lt;");
    if c == '<' {
      ReplaceAllAbsent("&lt;", '>', "&gt;");
      ReplaceAllAbsent("&lt;", '\n', "<br>");
    } else {
      ReplaceOne(c, '>', "&gt;");
      if c == '>' {
        ReplaceAllAbsent("&gt;", '\n', "<br>");
      } else {
        ReplaceOne(c, '\n', "<br>");
      }
    }
  }

  lemma {:induction false} CountAbsent(s: string, c: char)
    requires c !in s
    ensures Count(s, c) == 0
    decreases |s|
  {
    if s != [] {
      assert s[0] != c;
      assert s == [s[0]] + s[1..];
      CountAbsent(s[1..], c);
    }
  }

  lemma CountLt(c: char)
    ensures Count(EscapeChar(c), '<') == if c == '\n' then 1 else 0
  {
    var e := EscapeChar(c);
    if c == '\n' {
      assert e[1..] == "br>";
      CountAbsent("br>", '<');
    } else {
      CountAbsent(e, '<');
    }
  }

  /** The three chained replacements act character by character: none of
      them produces a character a later one replaces. */
  lemma {:induction false} SanitizeIsCharwise(s: string)
    ensures Sanitize(s) == EscapeEach(s)
    decreases |s|
  {
    if s != [] {
      var h, t := [s[0]], s[1..];
      assert s == h + t;
      ReplaceAllConcat(h, t, '<', "&lt;");
      ReplaceAllConcat(ReplaceAll(h, '<', "&lt;"), ReplaceAll(t, '<', "&lt;"), '>', "&gt;");
      ReplaceAllConcat(ReplaceAll(ReplaceAll(h, '<', "&lt;"), '>', "&gt;"),
                       ReplaceAll(ReplaceAll(t, '<', "&lt;"), '>', "&gt;"), '\n', "<br>");
      assert Sanitize(s) == Sanitize(h) + Sanitize(t);
      SanitizeChar(s[0]);
      SanitizeIsCharwise(t);
    }
  }

  /** Every `<` of the text begins a `<br>` tag. */
  predicate LtOnlyInBreaks(e: string) {
    forall i :: 0 <= i < |e| && e[i] == '<' ==> OccursAt(e, "<br>", i)
  }

  lemma LtOnlyInBreaksConcat(a: string, b: string)
    requires LtOnlyInBreaks(a) && LtOnlyInBreaks(b)
    ensures LtOnlyInBreaks(a + b)
  {
    forall i | 0 <= i < |a + b| && (a + b)[i] == '<'
      ensures OccursAt(a + b, "<br>", i)
    {
      if i < |a| {
        assert OccursAt(a, "<br>", i);
        assert (a + b)[i..i + 4] == a[i..i + 4];
      } else {
        assert b[i - |a|] == '<';
        assert OccursAt(b, "<br>", i - |a|);
        assert (a + b)[i..i + 4] == b[i - |a|..i - |a| + 4];
      }
    }
  }

  /** What the escaped text of the `custom.js` scripts is made of: no raw
      newline, a `<` only where a `<br>` starts, and exactly one `<br>` per
      input newline. */
  lemma {:induction false} EscapeEachShape(s: string)
    ensures '\n' !in EscapeEach(s)
    ensures LtOnlyInBreaks(EscapeEach(s))
    ensures Count(EscapeEach(s), '<') == Count(s, '\n')
    decreases |s|
  {
    if s != [] {
      var head := EscapeChar(s[0]);
      EscapeEachShape(s[1..]);
      assert '\n' !in head;
      assert LtOnlyInBreaks(head) by {
        if s[0] == '\n' {
          assert head[0..4] == "<br>";
        }
      }
      LtOnlyInBreaksConcat(head, EscapeEach(s[1..]));
      CountConcat(head, EscapeEach(s[1..]), '<');
      CountLt(s[0]);
    }
  }

  lemma SanitizeShape(s: string)
    ensures '\n' !in Sanitize(s)
    ensures LtOnlyInBreaks(Sanitize(s))
    ensures Count(Sanitize(s), '<') == Count(s, '\n')
  {
    SanitizeIsCharwise(s);
    EscapeEachShape(s);
  }

  /** `&` is not escaped, so a literal `<` and the text `&lt;` display the same. */
  lemma AmpersandNotEscaped()
    ensures Sanitize("<") == Sanitize("&lt;") == "&lt;"
  {
    SanitizeIsCharwise("<");
    SanitizeIsCharwise("&lt;");
    assert EscapeEach("&lt;") == "&" + EscapeEach("lt;");
    assert EscapeEach("lt;") == "l" + EscapeEach("t;");
    assert EscapeEach("t;") == "t" + EscapeEach(";");
  }

  /** `main.js` passes markup through untouched; on markup-free text both
      scripts insert the same thing. */
  lemma {:induction false} MarkupFreeAgrees(s: string)
    requires '<' !in s && '>' !in s
    ensures Sanitize(s) == BreakLines(s)
  {
    ReplaceAllAbsent(s, '<', "&lt;");
    ReplaceAllAbsent(s, '>', "&gt;");
  }

  /** So `main.js` inserts markup as markup: its `<` starts no `<br>`. */
  lemma MainKeepsMarkup()
    ensures BreakLines("<b>") == "<b>"
    ensures !LtOnlyInBreaks(BreakLines("<b>"))
    ensures LtOnlyInBreaks(Sanitize("<b>"))
  {
    ReplaceAllAbsent("<b>", '\n', "<br>");
    assert !OccursAt("<b>", "<br>", 0);
    SanitizeShape("<b>");
  }

  // ---------------------------------------------------------------------
  // The message log

  datatype Role = User | Model

  /** `'init'` for the greeting, a `Date.now()` reading otherwise. */
  datatype MessageId = Init | Stamp(ms: int)

  datatype Message = Message(id: MessageId, role: Role, text: string)

  const Greeting: string :=
    "I am The Architect. I serve as the cognitive interface for CodeMismatch. How may I assist with your enterprise strategy?"

  const OfflineReply: string := "The Architect is currently offline. API integration required."

  /** Which script's `handleChatSend` runs. */
  datatype ChatVariant = OfflineCustom | GeminiMain

  /** What `renderChat` shows for a log: each message's role and escaped text. */
  function Render(v: ChatVariant, ms: seq<Message>): (r: seq<(Role, string)>)
    ensures |r| == |ms|
    ensures forall i :: 0 <= i < |ms| ==>
      r[i] == (ms[i].role, if v == GeminiMain then BreakLines(ms[i].text) else Sanitize(ms[i].text))
  {
    seq(|ms|, i requires 0 <= i < |ms| =>
      (ms[i].role, if v == GeminiMain then BreakLines(ms[i].text) else Sanitize(ms[i].text)))
  }

  lemma RenderSnoc(v: ChatVariant, ms: seq<Message>, m: Message)
    ensures Render(v, ms + [m]) == Render(v, ms) + Render(v, [m])
  {}

  // ---------------------------------------------------------------------
  // generateOracleResponse (main.js)

  /** The outcome of the Gemini call, which is not modelled. */
  datatype GeminiOutcome = Answer(text: string) | Failure

  /** `history.slice(0, -1)`: every message but the last. */
  function Forwarded(history: seq<(Role, string)>): (f: seq<(Role, string)>)
    ensures |history| > 0 ==> |f| == |history| - 1 && f == history[..|history| - 1]
    ensures |history| == 0 ==> f == []
  {
    if |history| == 0 then [] else history[..|history| - 1]
  }

  function History(ms: seq<Message>): (h: seq<(Role, string)>)
    ensures |h| == |ms|
    ensures forall i :: 0 <= i < |ms| ==> h[i] == (ms[i].role, ms[i].text)
  {
    seq(|ms|, i requires 0 <= i < |ms| => (ms[i].role, ms[i].text))
  }

  /** The request the script would send: `None` when there is no key, since
      it returns before creating a client. */
  function OracleRequest(apiKey: string, history: seq<(Role, string)>, newMessage: string)
    : (r: Option<(seq<(Role, string)>, string)>)
    ensures r.None? <==> apiKey == ""
    ensures r.Some? ==> r.value == (Forwarded(history), newMessage)
  {
    if apiKey == "" then None else Some((Forwarded(history), newMessage))
  }

  const NoKeyReply: string := "Error: Uplink severed. (API_KEY missing in source code)"
  const EmptyReply: string := "Computing... Signal unstable."
  const FailureReply: string := "Critical Error: Logic gate failure. Re-initializing."

  /** The reply text. It is never empty. */
  function OracleResponse(apiKey: string, outcome: GeminiOutcome): (t: string)
    ensures t != ""
    ensures apiKey == "" ==> t == NoKeyReply
    ensures apiKey != "" && outcome.Answer? && outcome.text != "" ==> t == outcome.text
    ensures apiKey != "" && outcome == Answer("") ==> t == EmptyReply
    ensures apiKey != "" && outcome.Failure? ==> t == FailureReply
  {
    if apiKey == "" then NoKeyReply
    else match outcome
      case Answer(text) => if text == "" then EmptyReply else text
      case Failure => FailureReply
  }

  /** The key `main.js` ships with is empty, so whatever the service would
      do, every reply is the fixed "uplink severed" text. */
  const ShippedKey: string := ""

  lemma ShippedKeyNeverCalls(history: seq<(Role, string)>, msg: string, outcome: GeminiOutcome)
    ensures OracleRequest(ShippedKey, history, msg).None?
    ensures OracleResponse(ShippedKey, outcome) == NoKeyReply
  {}

  /** The history `handleChatSend` passes already ends with the new user
      message; the slice forwards exactly the messages before it. */
  lemma ForwardedIsPriorLog(ms: seq<Message>, m: Message)
    ensures Forwarded(History(ms + [m])) == History(ms)
  {
    assert History(ms + [m])[..|ms|] == History(ms);
  }

  // ---------------------------------------------------------------------
  // handleChatSend

  class ChatLog {
    const variant: ChatVariant
    var messages: seq<Message>
    var shown: seq<(Role, string)>
    var draft: string

    /** The displayed transcript is the rendering of the log. */
    predicate Valid()
      reads this
    {
      shown == Render(variant, messages)
    }

    /** The initial state after `renderChat`: the greeting only. */
    constructor (v: ChatVariant)
      ensures variant == v && messages == [Message(Init, Model, Greeting)] && draft == ""
      ensures Valid()
    {
      variant := v;
      messages := [Message(Init, Model, Greeting)];
      shown := Render(v, [Message(Init, Model, Greeting)]);
      draft := "";
    }

    method Type(text: string)
      modifies this
      ensures draft == text && messages == old(messages) && shown == old(shown)
    {
      draft := text;
    }

    /** `handleChatSend`: a draft that trims to nothing is left in the box
        and changes nothing; otherwise the trimmed text is logged and shown,
        the box is cleared, and the reply is logged and shown after it. The
        clock readings `now1`, `now2` give the ids; `apiKey` and `outcome`
        are used by `main.js` only. */
    method Send(now1: int, now2: int, apiKey: string, outcome: GeminiOutcome)
      returns (sent: bool)
      requires Valid()
      modifies this
      ensures Valid()
      ensures sent <==> Trim(old(draft)) != ""
      ensures !sent ==> messages == old(messages) && shown == old(shown) && draft == old(draft)
      ensures sent ==>
        (draft == ""
         && messages == old(messages) + [Message(Stamp(now1), User, Trim(old(draft))),
                                         Message(Stamp(now2 + 1), Model, Reply(variant, apiKey, outcome))])
    {
      var text := Trim(draft);
      if text == "" {
        return false;
      }
      Exchange(Message(Stamp(now1), User, text), Message(Stamp(now2 + 1), Model, Reply(variant, apiKey, outcome)));
      sent := true;
    }

    /** The two pushes of a sent message: the user's text, then the reply,
        with the box cleared between them. */
    method Exchange(asked: Message, answered: Message)
      requires Valid()
      modifies this
      ensures Valid() && draft == "" && messages == old(messages) + [asked, answered]
    {
      ghost var before := messages;
      Push(asked);
      draft := "";
      Push(answered);
      assert messages == before + [asked, answered];
    }

    /** `state.messages.push(m)` followed by `appendMessage(m.role, m.text)`. */
    method Push(m: Message)
      requires Valid()
      modifies this
      ensures Valid() && messages == old(messages) + [m] && draft == old(draft)
    {
      RenderSnoc(variant, messages, m);
      messages := messages + [m];
      shown := shown + Render(variant, [m]);
    }
  }

  /** The reply text a variant logs after a user message. */
  function Reply(v: ChatVariant, apiKey: string, outcome: GeminiOutcome): (t: string)
    ensures t != ""
    ensures v == OfflineCustom ==> t == OfflineReply
  {
    if v == OfflineCustom then OfflineReply else OracleResponse(apiKey, outcome)
  }

  /** A logged user message is never empty, never starts or ends with white
      space, and is the draft with white space removed at its two ends and
      nowhere else. */
  lemma LoggedTextTrimmed(draft: string)
    requires Trim(draft) != ""
    ensures !IsSpace(Trim(draft)[0]) && !IsSpace(Trim(draft)[|Trim(draft)| - 1])
    ensures exists lead: string, trail: string ::
      draft == lead + Trim(draft) + trail && AllSpace(lead) && AllSpace(trail)
  {
    var lead, trail := TrimParts(draft);
  }

}
