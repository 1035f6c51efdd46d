/**
 * Discord refuses a webhook whose name contains "discord" in any letter case.
 * When a character is copied, a name that would be refused gets Cyrillic
 * look-alikes in place of the Latin letters o and c.
 */
module Homoglyph {
  import opened Text

  const RESERVED := "discord"

  /** The name the copy command gives the new webhook, as the command computes it. */
  function WebhookNameAsWritten(name: string): (r: string)
    ensures |r| == |name|
    ensures !Contains(ToLower(name), RESERVED) ==> r == name
    ensures Contains(ToLower(name), RESERVED) ==>
      forall i :: 0 <= i < |name| ==> r[i] == if name[i] == 'o' then 'о' else if name[i] == 'c' then 'с' else name[i]
  {
    if Contains(ToLower(name), RESERVED) then ReplaceChar(ReplaceChar(name, 'o', 'о'), 'c', 'с') else name
  }

  /**
   * The check is case-insensitive but only lower-case o and c are replaced: the
   * name `DISCORD` is left as it is, and it still contains the reserved word.
   */
  lemma WebhookNameAsWrittenKeepsDiscord(name: string)
    requires name == "DISCORD"
    ensures WebhookNameAsWritten(name) == name
    ensures Contains(ToLower(WebhookNameAsWritten(name)), RESERVED)
  {
    var lower := ToLower(name);
    assert lower == RESERVED;
    assert OccursAt(lower, 0, RESERVED);
  }

  /** Latin o and c of either case, the letters the look-alikes stand in for. */
  predicate IsLatinOC(c: char)
  {
    c == 'o' || c == 'O' || c == 'c' || c == 'C'
  }

  /** The Cyrillic look-alike of a Latin o or c of either case; other characters stay. */
  function Lookalike(c: char): (r: char)
    ensures !IsLatinOC(r)
    ensures !IsLatinOC(c) ==> r == c
  {
    match c
    case 'o' => 'о'
    case 'O' => 'О'
    case 'c' => 'с'
    case 'C' => 'С'
    case _ => c
  }

  /**
   * The copy command's webhook name as evidently intended: a name containing
   * "discord" in any case gets look-alikes for o and c of both cases, so the
   * new name no longer contains the reserved word in any case. Other names are
   * kept.
   */
  function WebhookName(name: string): (r: string)
    ensures |r| == |name|
    ensures !Contains(ToLower(r), RESERVED)
    ensures !Contains(ToLower(name), RESERVED) ==> r == name
    ensures Contains(ToLower(name), RESERVED) ==> forall i :: 0 <= i < |name| ==> r[i] == Lookalike(name[i])
  {
    if Contains(ToLower(name), RESERVED) then
      var r := seq(|name|, i requires 0 <= i < |name| => Lookalike(name[i]));
      NoReservedWithoutLatinC(r);
      r
    else name
  }

  /** A name without a Latin c of either case cannot contain "discord" in any case. */
  lemma NoReservedWithoutLatinC(s: string)
    requires forall i :: 0 <= i < |s| ==> !IsLatinOC(s[i])
    ensures !Contains(ToLower(s), RESERVED)
  {
    var lower := ToLower(s);
    forall i | 0 <= i < |s| ensures lower[i] != 'c' {
      LowerCOnlyFromC(s[i]);
    }
    NoReservedWithoutC(lower);
  }

  /** A text without a Latin c does not contain "discord". */
  lemma NoReservedWithoutC(t: string)
    requires forall i :: 0 <= i < |t| ==> t[i] != 'c'
    ensures !Contains(t, RESERVED)
  {
    assert RESERVED[3] == 'c';
    forall i | 0 <= i && i + |RESERVED| <= |t| ensures !OccursAt(t, i, RESERVED) {
      assert t[i..i + |RESERVED|][3] == t[i + 3];
    }
  }

  /** Only a Latin c of either case lower-cases to a Latin c. */
  lemma LowerCOnlyFromC(c: char)
    ensures LowerChar(c) == 'c' ==> c == 'c' || c == 'C'
  {
  }
}
