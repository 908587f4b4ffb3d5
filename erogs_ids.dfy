/**
 * The erogs identifiers the creator and music handlers exchange: a menu item or detail button
 * carries "e" followed by the decimal id, and the handler that receives it strips an optional
 * "E", then an optional "e", and parses the rest with strconv.Atoi.
 */
module ErogsIds {
  import opened Wrappers
  import opened Errors
  import GoText

  /** "e" + strconv.Itoa(id). */
  function MenuId(id: int): (s: string)
    ensures |s| >= 2 && s[0] == 'e'
  {
    "e" + GoText.Itoa(id)
  }

  /** TrimPrefix "E", TrimPrefix "e", then Atoi. */
  function NormaliseId(key: string): Result<int, Err> {
    GoText.Atoi(GoText.TrimPrefix(GoText.TrimPrefix(key, "E"), "e"))
  }

  /** An id the bot hands out is read back as the same id. */
  lemma NormaliseMenuId(id: int)
    requires GoText.IsInt64(id)
    ensures NormaliseId(MenuId(id)) == Success(id)
  {
    var digits := GoText.Itoa(id);
    assert !("E" <= MenuId(id));
    assert MenuId(id)[1..] == digits;
    GoText.AtoiItoa(id);
  }

  /** The "E" form and a bare number are accepted too. */
  lemma NormaliseOtherForms(id: int)
    requires GoText.IsInt64(id)
    ensures NormaliseId("E" + GoText.Itoa(id)) == Success(id)
    ensures id >= 0 ==> NormaliseId(GoText.Itoa(id)) == Success(id)
  {
    var digits := GoText.Itoa(id);
    GoText.AtoiItoa(id);
    assert ("E" + digits)[1..] == digits;
    assert digits[0] != 'e' && digits[0] != 'E';
    assert !("e" <= digits) && !("E" <= digits);
  }

  /** Each prefix is stripped at most once: "EE1" and "ee1" are not numbers. */
  lemma StripsOnce()
    ensures NormaliseId("EE1").Failure?
    ensures NormaliseId("ee1").Failure?
    ensures NormaliseId("eE1").Failure?
  {
    assert GoText.TrimPrefix(GoText.TrimPrefix("EE1", "E"), "e") == "E1";
    assert GoText.TrimPrefix(GoText.TrimPrefix("ee1", "E"), "e") == "e1";
    assert GoText.TrimPrefix(GoText.TrimPrefix("eE1", "E"), "e") == "E1";
  }
}
