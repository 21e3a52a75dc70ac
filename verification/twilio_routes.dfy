/** The Twilio voice webhooks: pick the message to speak, escape it for XML
    and wrap it in a TwiML document that says it and hangs up. */
module TwilioRoutes {
  import opened Common

  const DefaultMessage: string := "Emergency alert. Please check your email for details."

  /** The TwiML document around the escaped message. */
  const TwimlPrefix: string := "<?xml version=\"1.0\" encoding=\"UTF-8\"?>\n<Response>\n    <Say voice=\"alice\">"
  const TwimlSuffix: string := "</Say>\n    <Hangup/>\n</Response>"

  /** `s.replace(c, r)` for a one-character pattern: every occurrence of c,
      left to right, becomes r. */
  function ReplaceChar(s: string, c: char, r: string): (t: string)
    ensures c !in s ==> t == s
  {
    if s == [] then [] else (if s[0] == c then r else [s[0]]) + ReplaceChar(s[1..], c, r)
  }

  lemma {:induction false} ReplaceCharAppend(a: string, b: string, c: char, r: string)
    ensures ReplaceChar(a + b, c, r) == ReplaceChar(a, c, r) + ReplaceChar(b, c, r)
    decreases |a|
  {
    if a == [] {
      assert a + b == b;
    } else {
      var head := if a[0] == c then r else [a[0]];
      assert (a + b)[0] == a[0];
      assert (a + b)[1..] == a[1..] + b;
      ReplaceCharAppend(a[1..], b, c, r);
      assert ReplaceChar(a + b, c, r) == head + ReplaceChar(a[1..] + b, c, r);
    }
  }

  lemma ReplaceCharSingle(x: char, c: char, r: string)
    ensures ReplaceChar([x], c, r) == if x == c then r else [x]
  {
    assert [x][1..] == [];
  }

  /** The escaping both handlers apply: `&` first, then `<`, `>`, `"` and
      `'`, each by a whole-string replace. */
  function EscapeXml(s: string): string
  {
    ReplaceChar(ReplaceChar(ReplaceChar(ReplaceChar(ReplaceChar(s, '&', "&amp;"), '<', "&lt;"), '>', "&gt;"), '"', "&quot;"),
                '\'', "&apos;")
  }

  /** The five characters XML 1.0 predefines entities for (section 4.6 of
      the XML 1.0 recommendation). */
  predicate Special(c: char)
  {
    c == '&' || c == '<' || c == '>' || c == '"' || c == '\''
  }

  /** The predefined entity of one character; any other character stands
      for itself. */
  function EscapeChar(c: char): (e: string)
    ensures !Special(c) ==> e == [c]
    ensures Special(c) ==> |e| >= 4 && e[0] == '&' && e[|e| - 1] == ';'
  {
    if c == '&' then "&amp;"
    else if c == '<' then "&lt;"
    else if c == '>' then "&gt;"
    else if c == '"' then "&quot;"
    else if c == '\'' then "&apos;"
    else [c]
  }

  /** The reference escaping: each character replaced by its entity in a
      single left-to-right pass. */
  function EscapeEach(s: string): string
  {
    if s == [] then [] else EscapeChar(s[0]) + EscapeEach(s[1..])
  }

  lemma {:induction false} EscapeXmlAppend(a: string, b: string)
    ensures EscapeXml(a + b) == EscapeXml(a) + EscapeXml(b)
  {
    var s1a, s1b := ReplaceChar(a, '&', "&amp;"), ReplaceChar(b, '&', "&amp;");
    ReplaceCharAppend(a, b, '&', "&amp;");
    var s2a, s2b := ReplaceChar(s1a, '<', "&lt;"), ReplaceChar(s1b, '<', "&lt;");
    ReplaceCharAppend(s1a, s1b, '<', "&lt;");
    var s3a, s3b := ReplaceChar(s2a, '>', "&gt;"), ReplaceChar(s2b, '>', "&gt;");
    ReplaceCharAppend(s2a, s2b, '>', "&gt;");
    var s4a, s4b := ReplaceChar(s3a, '"', "&quot;"), ReplaceChar(s3b, '"', "&quot;");
    ReplaceCharAppend(s3a, s3b, '"', "&quot;");
    ReplaceCharAppend(s4a, s4b, '\'', "&apos;");
  }

  /** On one character the chain of replacements gives that character's
      entity: the `&` of an entity put in by an earlier replacement is never
      met by a later one, and `&` itself is replaced first. */
  lemma EscapeXmlChar(c: char)
    ensures EscapeXml([c]) == EscapeChar(c)
  {
    ReplaceCharSingle(c, '&', "&amp;");
    if c == '&' {
      var e := "&amp;";
      assert '<' !in e && '>' !in e && '"' !in e && '\'' !in e;
      return;
    }
    ReplaceCharSingle(c, '<', "&lt;");
    if c == '<' {
      var e := "&lt;";
      assert '>' !in e && '"' !in e && '\'' !in e;
      return;
    }
    ReplaceCharSingle(c, '>', "&gt;");
    if c == '>' {
      var e := "&gt;";
      assert '"' !in e && '\'' !in e;
      return;
    }
    ReplaceCharSingle(c, '"', "&quot;");
    if c == '"' {
      var e := "&quot;";
      assert '\'' !in e;
      return;
    }
    ReplaceCharSingle(c, '\'', "&apos;");
  }

  /** The chain of five replacements is the single-pass escaping. */
  lemma {:induction false} EscapeXmlIsEscapeEach(s: string)
    ensures EscapeXml(s) == EscapeEach(s)
    decreases |s|
  {
    if s == [] {
    } else {
      assert s == [s[0]] + s[1..];
      EscapeXmlAppend([s[0]], s[1..]);
      EscapeXmlChar(s[0]);
      EscapeXmlIsEscapeEach(s[1..]);
    }
  }

  /** A message without special characters is spoken unchanged. */
  lemma {:induction false} PlainMessageUnchanged(s: string)
    requires forall i :: 0 <= i < |s| ==> !Special(s[i])
    ensures EscapeXml(s) == s
  {
    assert '&' !in s && '<' !in s && '>' !in s && '"' !in s && '\'' !in s;
  }

  /** The escaped text holds no raw `<`, `>`, `"` or `'`. */
  lemma {:induction false} NoRawMarkup(s: string)
    ensures forall i :: 0 <= i < |EscapeXml(s)| ==> EscapeXml(s)[i] !in "<>\"'"
    decreases |s|
  {
    EscapeXmlIsEscapeEach(s);
    NoRawMarkupEach(s);
  }

  lemma {:induction false} NoRawMarkupEach(s: string)
    ensures forall i :: 0 <= i < |EscapeEach(s)| ==> EscapeEach(s)[i] !in "<>\"'"
    decreases |s|
  {
    if s != [] {
      NoRawMarkupEach(s[1..]);
      var e, rest := EscapeChar(s[0]), EscapeEach(s[1..]);
      forall i | 0 <= i < |e + rest|
        ensures (e + rest)[i] !in "<>\"'"
      {
        if i >= |e| {
          assert (e + rest)[i] == rest[i - |e|];
        }
      }
    }
  }

  /** One of the five entities starts at position i of t. */
  predicate EntityAt(t: string, i: int)
  {
    OccursAt(t, "&amp;", i) || OccursAt(t, "&lt;", i) || OccursAt(t, "&gt;", i)
    || OccursAt(t, "&quot;", i) || OccursAt(t, "&apos;", i)
  }

  lemma EntityAtShift(a: string, b: string, j: int)
    requires EntityAt(b, j)
    ensures EntityAt(a + b, |a| + j)
  {
    forall e: string | OccursAt(b, e, j)
      ensures OccursAt(a + b, e, |a| + j)
    {
      assert (a + b)[|a| + j..|a| + j + |e|] == b[j..j + |e|];
    }
  }

  /** Every `&` of the escaped text begins an entity, so no entity is ever
      escaped a second time. */
  lemma {:induction false} EveryAmpersandStartsAnEntity(s: string)
    ensures forall i :: 0 <= i < |EscapeXml(s)| && EscapeXml(s)[i] == '&' ==> EntityAt(EscapeXml(s), i)
  {
    EscapeXmlIsEscapeEach(s);
    AmpersandsEach(s);
  }

  lemma {:induction false} AmpersandsEach(s: string)
    ensures forall i :: 0 <= i < |EscapeEach(s)| && EscapeEach(s)[i] == '&' ==> EntityAt(EscapeEach(s), i)
    decreases |s|
  {
    if s != [] {
      AmpersandsEach(s[1..]);
      var e, rest := EscapeChar(s[0]), EscapeEach(s[1..]);
      assert EscapeEach(s) == e + rest;
      forall i | 0 <= i < |e + rest| && (e + rest)[i] == '&'
        ensures EntityAt(e + rest, i)
      {
        if i >= |e| {
          assert rest[i - |e|] == '&';
          EntityAtShift(e, rest, i - |e|);
          assert |e| + (i - |e|) == i;
        } else {
          assert i == 0;
          assert (e + rest)[..|e|] == e;
        }
      }
    }
  }

  /** `p` is a prefix of `t`. */
  predicate StartsWith(t: string, p: string)
  {
    |p| <= |t| && t[..|p|] == p
  }

  /** Decoding of the five entities, left to right; any other character,
      including an `&` that starts no entity, stands for itself. */
  function Unescape(t: string): string
    decreases |t|
  {
    if t == [] then []
    else if StartsWith(t, "&amp;") then "&" + Unescape(t[5..])
    else if StartsWith(t, "&lt;") then "<" + Unescape(t[4..])
    else if StartsWith(t, "&gt;") then ">" + Unescape(t[4..])
    else if StartsWith(t, "&quot;") then "\"" + Unescape(t[6..])
    else if StartsWith(t, "&apos;") then "'" + Unescape(t[6..])
    else [t[0]] + Unescape(t[1..])
  }

  lemma StartsWithAppend(p: string, rest: string)
    ensures StartsWith(p + rest, p) && (p + rest)[|p|..] == rest
  {
    assert (p + rest)[..|p|] == p;
  }

  lemma NotStartsWith(t: string, p: string, k: nat)
    requires k < |p| && k < |t| && t[k] != p[k]
    ensures !StartsWith(t, p)
  {
    if |p| <= |t| {
      assert t[..|p|][k] != p[k];
    }
  }

  lemma UnescapeStep(c: char, rest: string)
    ensures Unescape(EscapeChar(c) + rest) == [c] + Unescape(rest)
  {
    var e := EscapeChar(c);
    var t := e + rest;
    StartsWithAppend(e, rest);
    if c == '&' {
    } else if c == '<' {
      NotStartsWith(t, "&amp;", 1);
    } else if c == '>' {
      NotStartsWith(t, "&amp;", 1);
      NotStartsWith(t, "&lt;", 1);
    } else if c == '"' {
      NotStartsWith(t, "&amp;", 1);
      NotStartsWith(t, "&lt;", 1);
      NotStartsWith(t, "&gt;", 1);
    } else if c == '\'' {
      NotStartsWith(t, "&amp;", 2);
      NotStartsWith(t, "&lt;", 1);
      NotStartsWith(t, "&gt;", 1);
      NotStartsWith(t, "&quot;", 1);
    } else {
      assert t[0] == c;
      NotStartsWith(t, "&amp;", 0);
      NotStartsWith(t, "&lt;", 0);
      NotStartsWith(t, "&gt;", 0);
      NotStartsWith(t, "&quot;", 0);
      NotStartsWith(t, "&apos;", 0);
    }
  }

  /** Decoding the entities gives back the message that was escaped. */
  lemma {:induction false} UnescapeEscape(s: string)
    ensures Unescape(EscapeXml(s)) == s
  {
    EscapeXmlIsEscapeEach(s);
    UnescapeEscapeEach(s);
  }

  lemma {:induction false} UnescapeEscapeEach(s: string)
    ensures Unescape(EscapeEach(s)) == s
    decreases |s|
  {
    if s != [] {
      UnescapeStep(s[0], EscapeEach(s[1..]));
      UnescapeEscapeEach(s[1..]);
    }
  }

  /** Why `&` goes first: replacing `<` before `&` would escape the `&` of
      the new entity again, while the order used turns `<` into `&lt;`. */
  lemma WrongOrderEscapesTwice(c: char)
    requires c == '<'
    ensures ReplaceChar(ReplaceChar([c], '<', "&lt;"), '&', "&amp;") == "&amp;lt;"
    ensures EscapeXml([c]) == "&lt;"
  {
    var lt := ReplaceChar([c], '<', "&lt;");
    ReplaceCharSingle(c, '<', "&lt;");
    var rest := lt[1..];
    assert lt == [lt[0]] + rest && lt[0] == '&' && '&' !in rest;
    ReplaceCharAppend([lt[0]], rest, '&', "&amp;");
    ReplaceCharSingle(lt[0], '&', "&amp;");
    var amp := "&amp;";
    assert ReplaceChar(lt, '&', amp) == amp + rest;
    assert rest == "lt;";
    assert amp + rest == "&amp;lt;";
    EscapeXmlChar(c);
  }

  /** The spoken message: a missing or empty one becomes the default. */
  function MessageOrDefault(message: string): (m: string)
    ensures message == "" ==> m == DefaultMessage
    ensures message != "" ==> m == message
  {
    if message == "" then DefaultMessage else message
  }

  /** The TwiML response body for a message. */
  function Twiml(message: string): string
  {
    TwimlPrefix + EscapeXml(MessageOrDefault(message)) + TwimlSuffix
  }

  /** The POST handler: the form's "Message" field, else the query's
      "message" parameter, else the default. */
  function VoicePost(form: map<string, string>, query: map<string, string>): (body: string)
    ensures "Message" in form && form["Message"] != "" ==> body == Twiml(form["Message"])
    ensures ("Message" !in form || form["Message"] == "") && "message" in query ==> body == Twiml(query["message"])
    ensures ("Message" !in form || form["Message"] == "") && "message" !in query ==> body == Twiml(DefaultMessage)
  {
    var fromForm := if "Message" in form then form["Message"] else "";
    var message := if fromForm != "" then fromForm else if "message" in query then query["message"] else "";
    Twiml(message)
  }

  /** The GET handler: the optional query parameter, else the default. */
  function VoiceGet(message: Option<string>): (body: string)
    ensures message.Some? ==> body == Twiml(message.value)
    ensures message.None? ==> body == Twiml(DefaultMessage)
  {
    Twiml(if message.Some? then message.value else "")
  }

  /** The body is the fixed prefix, an escaped text that decodes to the
      spoken message and cannot close the `<Say>` element early, and the
      fixed suffix. */
  lemma {:induction false} TwimlShape(message: string)
    ensures var body := Twiml(message);
      && StartsWith(body, TwimlPrefix)
      && |body| >= |TwimlPrefix| + |TwimlSuffix|
      && body[|body| - |TwimlSuffix|..] == TwimlSuffix
      && var inner := body[|TwimlPrefix|..|body| - |TwimlSuffix|];
         && Unescape(inner) == MessageOrDefault(message)
         && forall i :: 0 <= i < |inner| ==> inner[i] != '<'
  {
    var escaped := EscapeXml(MessageOrDefault(message));
    FrameSlices(TwimlPrefix, escaped, TwimlSuffix);
    UnescapeEscape(MessageOrDefault(message));
    NoRawMarkup(MessageOrDefault(message));
  }

  /** The two handlers speak the same text for the same message, and an
      empty form field falls back to the query. */
  lemma HandlersAgree(message: string, query: map<string, string>)
    ensures VoicePost(map["Message" := message], query) == (if message != "" then VoiceGet(Some(message)) else
                                                          if "message" in query then VoiceGet(Some(query["message"]))
                                                          else VoiceGet(None))
  {
  }
}
