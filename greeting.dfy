/**
 * The message a character posts after a reset or a copy: its greeting with
 * `{{char}}` and `{{user}}` put in, after a mention of the user who ran the
 * command, cut down to Discord's message length limit.
 */
module Greeting {
  import opened Text

  /** The longest message Discord accepts, in UTF-16 code units. */
  const MAX_MESSAGE_LENGTH := 2000
  /** How many code units of an over-long message are kept before the ellipsis. */
  const KEPT_LENGTH := 1994
  const ELLIPSIS := "[...]"

  const CHAR := "{{char}}"
  const USER := "{{user}}"

  /**
   * `r` is the start of `m`, cut after 1994 UTF-16 code units, followed by
   * `[...]`. The cut keeps whole characters: it falls one unit earlier only
   * when unit 1994 would split a surrogate pair.
   */
  predicate CutWithEllipsis(r: string, m: string)
  {
    |r| >= |ELLIPSIS| && r[|r| - |ELLIPSIS|..] == ELLIPSIS
    && var kept := r[..|r| - |ELLIPSIS|];
    kept < m && KEPT_LENGTH - 1 <= Utf16Length(kept) <= KEPT_LENGTH
    && (Utf16Length(kept) < KEPT_LENGTH ==> Utf16Units(m[|kept|]) == 2)
  }

  lemma EllipsisLength()
    ensures Utf16Length(ELLIPSIS) == |ELLIPSIS| == 5
  {
    Utf16LengthBmp(ELLIPSIS);
  }

  /**
   * A message longer than 2000 UTF-16 code units becomes its first 1994 units
   * followed by `[...]`; a shorter one is sent as it is.
   */
  function TruncateMessage(m: string): (r: string)
    ensures Utf16Length(r) <= MAX_MESSAGE_LENGTH
    ensures Utf16Length(m) <= MAX_MESSAGE_LENGTH ==> r == m
    ensures Utf16Length(m) > MAX_MESSAGE_LENGTH ==> CutWithEllipsis(r, m)
  {
    if Utf16Length(m) > MAX_MESSAGE_LENGTH then
      var kept := Utf16Prefix(m, KEPT_LENGTH);
      EllipsisLength();
      Utf16LengthConcat(kept, ELLIPSIS);
      assert (kept + ELLIPSIS)[..|kept|] == kept;
      kept + ELLIPSIS
    else m
  }

  /** Truncating twice is truncating once: a truncated message is short enough to send. */
  lemma TruncateIdempotent(m: string)
    ensures TruncateMessage(TruncateMessage(m)) == TruncateMessage(m)
  {
  }

  /**
   * A message of more than 1000 characters outside the Basic Multilingual
   * Plane (emoji, say) is over the limit, as each is two code units: its first
   * 997 characters are kept.
   */
  lemma AstralMessageCut(m: string)
    requires |m| > 1000 && forall i :: 0 <= i < |m| ==> m[i] as int >= 0x1_0000
    ensures TruncateMessage(m) == m[..997] + ELLIPSIS
  {
    Utf16LengthAstral(m);
    var r := TruncateMessage(m);
    var kept := r[..|r| - |ELLIPSIS|];
    assert kept == m[..|kept|];
    Utf16LengthAstral(kept);
    assert r == kept + ELLIPSIS;
  }

  /** The greeting with the character's and the user's names in bold in place of the placeholders. */
  function SubstituteGreeting(greeting: string, charName: string, userName: string): string
  {
    Replace(Replace(greeting, CHAR, "**" + charName + "**"), USER, "**" + userName + "**")
  }

  /**
   * The message posted through the character's webhook: the user's mention, a
   * space and the substituted greeting, truncated to the length limit. A message
   * within the limit is posted whole.
   */
  function CharacterMessage(mention: string, greeting: string, charName: string, userName: string): (r: string)
    ensures Utf16Length(r) <= MAX_MESSAGE_LENGTH
    ensures var full := mention + " " + SubstituteGreeting(greeting, charName, userName);
      (Utf16Length(full) <= MAX_MESSAGE_LENGTH ==> r == full)
      && (Utf16Length(full) > MAX_MESSAGE_LENGTH ==> CutWithEllipsis(r, full))
  {
    TruncateMessage(mention + " " + SubstituteGreeting(greeting, charName, userName))
  }

  /**
   * When neither name holds a brace, the substituted greeting has no
   * `{{char}}` and no `{{user}}` left: every placeholder was filled in, and
   * filling one in did not make another.
   */
  lemma GreetingFilledIn(greeting: string, charName: string, userName: string)
    requires '{' !in charName && '{' !in userName
    ensures var g := SubstituteGreeting(greeting, charName, userName);
      !Contains(g, CHAR) && !Contains(g, USER)
  {
    var boldChar, boldUser := "**" + charName + "**", "**" + userName + "**";
    assert Separated(boldChar, CHAR) && Separated(boldUser, CHAR) && Separated(boldUser, USER);
    var g1 := Replace(greeting, CHAR, boldChar);
    ReplaceLeavesNo(greeting, CHAR, boldChar, CHAR);
    ReplaceLeavesNo(g1, USER, boldUser, USER);
    ReplaceLeavesNo(g1, USER, boldUser, CHAR);
  }
}
