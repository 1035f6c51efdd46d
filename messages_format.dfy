/**
 * The server messages format: the template a character gets user messages in.
 * `set-server-messages-format` accepts a format only when it holds the message
 * placeholder and either all or none of the three referenced-message
 * placeholders, and answers with a preview of the format applied to a sample
 * message.
 */
module MessagesFormat {
  import opened Text
  import opened Template

  const MSG := "{{msg}}"
  const USER := "{{user}}"
  const REF_BEGIN := "{{ref_msg_begin}}"
  const REF_TEXT := "{{ref_msg_text}}"
  const REF_END := "{{ref_msg_end}}"
  const REF_USER := "{{ref_msg_user}}"
  /** The two characters backslash and `n`, which the preview turns into a line break. */
  const ESCAPED_NEWLINE := "\\n"

  /** The outcome of checking a candidate format. */
  datatype FormatCheck = Accepted | MissingMsgPlaceholder | WrongRefMsgFormat

  predicate HasAllRefs(f: string)
  {
    Contains(f, REF_BEGIN) && Contains(f, REF_TEXT) && Contains(f, REF_END)
  }

  predicate HasNoRefs(f: string)
  {
    !Contains(f, REF_BEGIN) && !Contains(f, REF_TEXT) && !Contains(f, REF_END)
  }

  /** How many of the three referenced-message placeholders the format holds. */
  function RefCount(f: string): (n: nat)
    ensures n <= 3
    ensures n == 0 <==> HasNoRefs(f)
    ensures n == 3 <==> HasAllRefs(f)
  {
    (if Contains(f, REF_BEGIN) then 1 else 0)
    + (if Contains(f, REF_TEXT) then 1 else 0)
    + (if Contains(f, REF_END) then 1 else 0)
  }

  /**
   * The checks of `set-server-messages-format`: a format is accepted exactly
   * when it holds `{{msg}}` and the referenced-message group is complete or absent.
   */
  function CheckFormat(f: string): (r: FormatCheck)
    ensures r == Accepted <==> Contains(f, MSG) && (HasAllRefs(f) || HasNoRefs(f))
    ensures r == MissingMsgPlaceholder <==> !Contains(f, MSG)
    ensures r == WrongRefMsgFormat <==> Contains(f, MSG) && !HasAllRefs(f) && !HasNoRefs(f)
  {
    if !Contains(f, MSG) then MissingMsgPlaceholder
    else
      var n := RefCount(f);
      if n != 0 && n != 3 then WrongRefMsgFormat else Accepted
  }

  /**
   * The preview: the message `Hello!` from user `Lemon` and, only when the
   * format holds the whole referenced-message group, the referenced message
   * `Hola` from `Met`, with the group's markers dropped and escaped line breaks
   * turned into real ones.
   */
  function Preview(f: string): string
  {
    var text := Replace(Replace(f, MSG, "Hello!"), USER, "Lemon");
    if RefCount(f) == 3 then
      Replace(Replace(Replace(Replace(Replace(
        text, REF_TEXT, "Hola"), REF_BEGIN, ""), REF_END, ""), REF_USER, "Met"), ESCAPED_NEWLINE, "\n")
    else text
  }

  /**
   * An accepted format without a referenced-message group: in the preview the
   * message and user placeholders are all substituted, and no marker of the
   * group appears.
   */
  lemma PreviewWithoutReference(f: string)
    requires CheckFormat(f) == Accepted && HasNoRefs(f)
    ensures var text := Preview(f);
      !Contains(text, MSG) && !Contains(text, USER) && HasNoRefs(text)
  {
    var t1 := Replace(f, MSG, "Hello!");
    ReplaceLeavesNo(f, MSG, "Hello!", MSG);
    ReplaceLeavesNo(f, MSG, "Hello!", REF_BEGIN);
    ReplaceLeavesNo(f, MSG, "Hello!", REF_TEXT);
    ReplaceLeavesNo(f, MSG, "Hello!", REF_END);
    ReplaceLeavesNo(t1, USER, "Lemon", USER);
    ReplaceLeavesNo(t1, USER, "Lemon", MSG);
    ReplaceLeavesNo(t1, USER, "Lemon", REF_BEGIN);
    ReplaceLeavesNo(t1, USER, "Lemon", REF_TEXT);
    ReplaceLeavesNo(t1, USER, "Lemon", REF_END);
  }

  /**
   * An accepted format with the referenced-message group: in the preview the
   * referenced user is substituted and no escaped line break is left.
   */
  lemma PreviewWithReference(f: string)
    requires CheckFormat(f) == Accepted && HasAllRefs(f)
    ensures !Contains(Preview(f), REF_USER) && !Contains(Preview(f), ESCAPED_NEWLINE)
  {
    var text := Replace(Replace(f, MSG, "Hello!"), USER, "Lemon");
    var t5 := Replace(Replace(Replace(Replace(text, REF_TEXT, "Hola"), REF_BEGIN, ""), REF_END, ""), REF_USER, "Met");
    ReplaceLeavesNo(Replace(Replace(Replace(text, REF_TEXT, "Hola"), REF_BEGIN, ""), REF_END, ""), REF_USER, "Met", REF_USER);
    ReplaceLeavesNo(t5, ESCAPED_NEWLINE, "\n", REF_USER);
    ReplaceLeavesNo(t5, ESCAPED_NEWLINE, "\n", ESCAPED_NEWLINE);
  }

  lemma UserHasNoMsg()
    ensures !Contains(USER, MSG)
  {
    assert !OccursAt(USER, 0, MSG) by { assert USER[0..7][2] == 'u'; }
    assert !OccursAt(USER, 1, MSG) by { assert USER[1..8][1] == 'u'; }
  }

  /**
   * A format `{{user}}<m>{{msg}}` whose middle text starts with a space and has
   * no brace, such as `{{user}} says: {{msg}}`, is accepted and previews as
   * `Lemon<m>Hello!`.
   */
  lemma PreviewUserSaysMsg(m: string)
    requires |m| > 0 && m[0] == ' ' && '{' !in m
    ensures CheckFormat(USER + m + MSG) == Accepted
    ensures Preview(USER + m + MSG) == "Lemon" + m + "Hello!"
  {
    var f := USER + m + MSG;
    assert Separated(m, REF_BEGIN) && Separated(m, REF_TEXT) && Separated(m, REF_END) && Separated(m, MSG);
    ConcatSeparated(USER, m, MSG, REF_BEGIN);
    ConcatSeparated(USER, m, MSG, REF_TEXT);
    ConcatSeparated(USER, m, MSG, REF_END);
    assert OccursAt(f, |USER| + |m|, MSG);
    UserHasNoMsg();
    ReplaceAfterSeparated(USER, m, MSG, MSG, "Hello!");
    ReplaceAtStart(MSG, MSG, "Hello!");
    assert MSG[|MSG|..] == [];
    var rest := m + "Hello!";
    assert Replace(f, MSG, "Hello!") == USER + rest;
    assert OccursAt(USER + rest, 0, USER);
    ReplaceAtStart(USER + rest, USER, "Lemon");
    assert (USER + rest)[|USER|..] == rest;
    AbsentByFirstChar(rest, USER);
    ReplaceAbsent(rest, USER, "Lemon");
  }

  /** The format `{{user}} says: {{msg}}` previews as `Lemon says: Hello!`. */
  lemma PreviewExample()
    ensures Preview(USER + " says: " + MSG) == "Lemon" + " says: " + "Hello!"
  {
    PreviewUserSaysMsg(" says: ");
  }

  // The six placeholders of a messages format, as template placeholders.

  lemma MsgHole()
    ensures MSG == Hole("msg") && GoodName("msg")
  {
  }

  lemma UserHole()
    ensures USER == Hole("user") && GoodName("user")
  {
  }

  lemma RefBeginHole()
    ensures REF_BEGIN == Hole("ref_msg_begin") && GoodName("ref_msg_begin")
  {
  }

  lemma RefTextHole()
    ensures REF_TEXT == Hole("ref_msg_text") && GoodName("ref_msg_text")
  {
  }

  lemma RefEndHole()
    ensures REF_END == Hole("ref_msg_end") && GoodName("ref_msg_end")
  {
  }

  lemma RefUserHole()
    ensures REF_USER == Hole("ref_msg_user") && GoodName("ref_msg_user")
  {
  }

  /**
   * What the preview puts in place of a token: the sample message and user
   * and, when the referenced-message group is previewed, the referenced sample
   * with the group's markers dropped.
   */
  function SampleToken(t: Token, withRef: bool): Token
  {
    if t == Slot("msg") then Lit("Hello!")
    else if t == Slot("user") then Lit("Lemon")
    else if withRef && t == Slot("ref_msg_text") then Lit("Hola")
    else if withRef && (t == Slot("ref_msg_begin") || t == Slot("ref_msg_end")) then Lit("")
    else if withRef && t == Slot("ref_msg_user") then Lit("Met")
    else t
  }

  function Sample(ts: seq<Token>, withRef: bool): seq<Token>
  {
    seq(|ts|, i requires 0 <= i < |ts| => SampleToken(ts[i], withRef))
  }

  /** The template holds the whole referenced-message group. */
  predicate AllRefSlots(ts: seq<Token>)
  {
    Slot("ref_msg_begin") in ts && Slot("ref_msg_text") in ts && Slot("ref_msg_end") in ts
  }

  /** The template holds none of the referenced-message group. */
  predicate NoRefSlots(ts: seq<Token>)
  {
    Slot("ref_msg_begin") !in ts && Slot("ref_msg_text") !in ts && Slot("ref_msg_end") !in ts
  }

  /**
   * On a format written as a template, the checks of the command are about
   * its tokens: it is accepted exactly when it has the message placeholder and
   * all or none of the referenced-message group.
   */
  lemma CheckTemplate(ts: seq<Token>)
    requires WellFormed(ts)
    ensures CheckFormat(Render(ts)) == MissingMsgPlaceholder <==> Slot("msg") !in ts
    ensures CheckFormat(Render(ts)) == Accepted <==> Slot("msg") in ts && (AllRefSlots(ts) || NoRefSlots(ts))
    ensures HasAllRefs(Render(ts)) <==> AllRefSlots(ts)
  {
    MsgHole();
    RefBeginHole();
    RefTextHole();
    RefEndHole();
    ContainsHole(ts, "msg");
    ContainsHole(ts, "ref_msg_begin");
    ContainsHole(ts, "ref_msg_text");
    ContainsHole(ts, "ref_msg_end");
  }

  lemma MessageSteps(ts: seq<Token>)
    requires WellFormed(ts)
    ensures Replace(Replace(Render(ts), MSG, "Hello!"), USER, "Lemon") == Render(Fill(Fill(ts, "msg", "Hello!"), "user", "Lemon"))
    ensures WellFormed(Fill(Fill(ts, "msg", "Hello!"), "user", "Lemon"))
  {
    MsgHole();
    UserHole();
    ReplaceSlot(ts, "msg", "Hello!");
    ReplaceSlot(Fill(ts, "msg", "Hello!"), "user", "Lemon");
  }

  /** Filling in one placeholder after another is the token-wise substitution of the samples. */
  lemma SampleSteps(ts: seq<Token>)
    ensures Fill(Fill(ts, "msg", "Hello!"), "user", "Lemon") == Sample(ts, false)
    ensures RefFill(Fill(Fill(ts, "msg", "Hello!"), "user", "Lemon")) == Sample(ts, true)
  {
  }

  /** The referenced-message group filled in, one placeholder at a time as the preview does. */
  function RefFill(ts: seq<Token>): seq<Token>
  {
    Fill(Fill(Fill(Fill(ts, "ref_msg_text", "Hola"), "ref_msg_begin", ""), "ref_msg_end", ""), "ref_msg_user", "Met")
  }

  lemma ReferenceSteps(ts: seq<Token>)
    requires WellFormed(ts)
    ensures Replace(Replace(Replace(Replace(Render(ts), REF_TEXT, "Hola"), REF_BEGIN, ""), REF_END, ""), REF_USER, "Met")
      == Render(RefFill(ts))
  {
    RefTextHole();
    RefBeginHole();
    RefEndHole();
    RefUserHole();
    ReplaceSlot(ts, "ref_msg_text", "Hola");
    var t3 := Fill(ts, "ref_msg_text", "Hola");
    ReplaceSlot(t3, "ref_msg_begin", "");
    var t4 := Fill(t3, "ref_msg_begin", "");
    ReplaceSlot(t4, "ref_msg_end", "");
    ReplaceSlot(Fill(t4, "ref_msg_end", ""), "ref_msg_user", "Met");
  }

  /**
   * The preview of a format written as a template is the token-wise
   * substitution of the samples: the message and the user always, the
   * referenced message and its user (with the group's markers dropped) only
   * when the whole group is there, after which escaped line breaks become real
   * ones.
   */
  lemma PreviewOfTemplate(ts: seq<Token>)
    requires WellFormed(ts)
    ensures AllRefSlots(ts) ==> Preview(Render(ts)) == Replace(Render(Sample(ts, true)), ESCAPED_NEWLINE, "\n")
    ensures !AllRefSlots(ts) ==> Preview(Render(ts)) == Render(Sample(ts, false))
  {
    CheckTemplate(ts);
    MessageSteps(ts);
    var t2 := Fill(Fill(ts, "msg", "Hello!"), "user", "Lemon");
    SampleSteps(ts);
    if AllRefSlots(ts) {
      ReferenceSteps(t2);
    }
  }

  lemma SampleCons(t: Token, ts: seq<Token>, withRef: bool)
    ensures Sample([t] + ts, withRef) == [SampleToken(t, withRef)] + Sample(ts, withRef)
  {
  }

  /**
   * The conversation format `{{ref_msg_begin}}{{ref_msg_user}}<a>{{ref_msg_text}}{{ref_msg_end}}<b>{{user}}<c>{{msg}}`
   * as a template: the referenced message first, the user's message after it.
   */
  function Conversation(a: string, b: string, c: string): seq<Token>
  {
    [Slot("ref_msg_begin")] + ([Slot("ref_msg_user")] + ([Lit(a)] + ([Slot("ref_msg_text")] + ([Slot("ref_msg_end")]
      + ([Lit(b)] + ([Slot("user")] + ([Lit(c)] + [Slot("msg")])))))))
  }

  lemma ConversationText(a: string, b: string, c: string)
    requires '{' !in a && '{' !in b && '{' !in c
    ensures WellFormed(Conversation(a, b, c)) && AllRefSlots(Conversation(a, b, c))
    ensures Render(Conversation(a, b, c))
      == REF_BEGIN + (REF_USER + (a + (REF_TEXT + (REF_END + (b + (USER + (c + MSG)))))))
  {
    MsgHole();
    UserHole();
    RefBeginHole();
    RefTextHole();
    RefEndHole();
    RefUserHole();
    var t8 := [Slot("msg")];
    assert WellFormed(t8) && Render(t8) == MSG by { RenderCons(Slot("msg"), []); }
    var t7 := [Lit(c)] + t8;
    RenderCons(Lit(c), t8);
    WellFormedCons(Lit(c), t8);
    var t6 := [Slot("user")] + t7;
    RenderCons(Slot("user"), t7);
    WellFormedCons(Slot("user"), t7);
    var t5 := [Lit(b)] + t6;
    RenderCons(Lit(b), t6);
    WellFormedCons(Lit(b), t6);
    var t4 := [Slot("ref_msg_end")] + t5;
    RenderCons(Slot("ref_msg_end"), t5);
    WellFormedCons(Slot("ref_msg_end"), t5);
    var t3 := [Slot("ref_msg_text")] + t4;
    RenderCons(Slot("ref_msg_text"), t4);
    WellFormedCons(Slot("ref_msg_text"), t4);
    var t2 := [Lit(a)] + t3;
    RenderCons(Lit(a), t3);
    WellFormedCons(Lit(a), t3);
    var t1 := [Slot("ref_msg_user")] + t2;
    RenderCons(Slot("ref_msg_user"), t2);
    WellFormedCons(Slot("ref_msg_user"), t2);
    var ts := [Slot("ref_msg_begin")] + t1;
    RenderCons(Slot("ref_msg_begin"), t1);
    WellFormedCons(Slot("ref_msg_begin"), t1);
    assert ts[0] == Slot("ref_msg_begin") && ts[3] == Slot("ref_msg_text") && ts[4] == Slot("ref_msg_end");
  }

  /** The conversation template with its placeholders given their sample values. */
  function SampledConversation(a: string, b: string, c: string): seq<Token>
  {
    [Lit("")] + ([Lit("Met")] + ([Lit(a)] + ([Lit("Hola")] + ([Lit("")]
      + ([Lit(b)] + ([Lit("Lemon")] + ([Lit(c)] + [Lit("Hello!")])))))))
  }

  lemma SampleConversationTail(b: string, c: string)
    ensures Sample([Lit(b)] + ([Slot("user")] + ([Lit(c)] + [Slot("msg")])), true)
      == [Lit(b)] + ([Lit("Lemon")] + ([Lit(c)] + [Lit("Hello!")]))
  {
    var t8 := [Slot("msg")];
    var t7 := [Lit(c)] + t8;
    var t6 := [Slot("user")] + t7;
    assert Sample(t8, true) == [Lit("Hello!")] by { SampleCons(Slot("msg"), [], true); }
    SampleCons(Lit(c), t8, true);
    SampleCons(Slot("user"), t7, true);
    SampleCons(Lit(b), t6, true);
  }

  lemma SampleConversation(a: string, b: string, c: string)
    ensures Sample(Conversation(a, b, c), true) == SampledConversation(a, b, c)
  {
    var t5 := [Lit(b)] + ([Slot("user")] + ([Lit(c)] + [Slot("msg")]));
    var t4 := [Slot("ref_msg_end")] + t5;
    var t3 := [Slot("ref_msg_text")] + t4;
    var t2 := [Lit(a)] + t3;
    var t1 := [Slot("ref_msg_user")] + t2;
    SampleConversationTail(b, c);
    SampleCons(Slot("ref_msg_end"), t5, true);
    SampleCons(Slot("ref_msg_text"), t4, true);
    SampleCons(Lit(a), t3, true);
    SampleCons(Slot("ref_msg_user"), t2, true);
    SampleCons(Slot("ref_msg_begin"), t1, true);
  }

  lemma RenderSampled(a: string, b: string, c: string)
    ensures Render(SampledConversation(a, b, c)) == "Met" + (a + ("Hola" + (b + ("Lemon" + (c + "Hello!")))))
  {
    var u8 := [Lit("Hello!")];
    var u7 := [Lit(c)] + u8;
    var u6 := [Lit("Lemon")] + u7;
    var u5 := [Lit(b)] + u6;
    var u4 := [Lit("")] + u5;
    var u3 := [Lit("Hola")] + u4;
    var u2 := [Lit(a)] + u3;
    var u1 := [Lit("Met")] + u2;
    assert Render(u8) == "Hello!" by { RenderCons(Lit("Hello!"), []); }
    RenderCons(Lit(c), u8);
    RenderCons(Lit("Lemon"), u7);
    RenderCons(Lit(b), u6);
    RenderCons(Lit(""), u5);
    RenderCons(Lit("Hola"), u4);
    RenderCons(Lit(a), u3);
    RenderCons(Lit("Met"), u2);
    RenderCons(Lit(""), u1);
  }

  /**
   * The conversation format, with texts `a`, `b`, `c` without an opening
   * brace, previews as `Met<a>Hola<b>Lemon<c>Hello!` with escaped line breaks
   * made real: the referenced message `Hola` from `Met` with the group's
   * markers dropped, then the message `Hello!` from `Lemon`.
   */
  lemma PreviewConversation(a: string, b: string, c: string)
    requires '{' !in a && '{' !in b && '{' !in c
    ensures Preview(REF_BEGIN + (REF_USER + (a + (REF_TEXT + (REF_END + (b + (USER + (c + MSG))))))))
      == Replace("Met" + (a + ("Hola" + (b + ("Lemon" + (c + "Hello!"))))), ESCAPED_NEWLINE, "\n")
  {
    var ts := Conversation(a, b, c);
    ConversationText(a, b, c);
    SampleConversation(a, b, c);
    RenderSampled(a, b, c);
    PreviewOfTemplate(ts);
    assert AllRefSlots(ts);
    assert Preview(Render(ts)) == Replace(Render(Sample(ts, true)), ESCAPED_NEWLINE, "\n");
  }

  lemma ExampleSample()
    ensures "Met" + (": " + ("Hola" + (ESCAPED_NEWLINE + ("Lemon" + (": " + "Hello!")))))
      == "Met: Hola" + (ESCAPED_NEWLINE + "Lemon: Hello!")
    ensures "Met: Hola" + ("\n" + "Lemon: Hello!") == "Met: Hola\nLemon: Hello!"
  {
  }

  /** An escaped line break between two texts without a backslash becomes a real one. */
  lemma EscapedBreak(x: string, y: string)
    requires '\\' !in x && '\\' !in y
    ensures Replace(x + (ESCAPED_NEWLINE + y), ESCAPED_NEWLINE, "\n") == x + ("\n" + y)
  {
    var rest := ESCAPED_NEWLINE + y;
    ReplaceAfterPlain(x, rest, ESCAPED_NEWLINE, "\n");
    assert OccursAt(rest, 0, ESCAPED_NEWLINE) by { assert rest[0..2] == ESCAPED_NEWLINE; }
    ReplaceAtStart(rest, ESCAPED_NEWLINE, "\n");
    assert rest[2..] == y;
    AbsentByFirstChar(y, ESCAPED_NEWLINE);
    ReplaceAbsent(y, ESCAPED_NEWLINE, "\n");
  }

  /**
   * The format `{{ref_msg_begin}}{{ref_msg_user}}: {{ref_msg_text}}{{ref_msg_end}}\n{{user}}: {{msg}}`,
   * with an escaped line break, previews as two lines: `Met: Hola` and
   * `Lemon: Hello!`.
   */
  lemma PreviewReferenceExample()
    ensures Preview(REF_BEGIN + (REF_USER + (": " + (REF_TEXT + (REF_END + (ESCAPED_NEWLINE + (USER + (": " + MSG))))))))
      == "Met: Hola\nLemon: Hello!"
  {
    PreviewConversation(": ", ESCAPED_NEWLINE, ": ");
    ExampleSample();
    EscapedBreak("Met: Hola", "Lemon: Hello!");
  }
}
