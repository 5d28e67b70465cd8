/** `sanitize_sequence`: strips alignment gaps from IgBLAST strings. */
module Utils {
  import opened Wrappers
  import opened Values

  /**
   * A non-empty str loses every '-'; None, the empty str and any non-str value give None.
   * An all-dash str gives the empty str, not None.
   */
  function SanitizeSequence(sequence: Value): (r: Option<string>)
    ensures r.Some? <==> sequence.Str? && sequence.text != ""
    ensures r.Some? ==> '-' !in r.value && |r.value| == |sequence.text| - Count(sequence.text, '-')
  {
    if sequence.Str? && sequence.text != "" then Some(Remove(sequence.text, '-')) else None
  }

  /** The result is the input with its dashes removed, segment by segment. */
  lemma SanitizeSplits(s: string, t: string)
    requires s + t != ""
    ensures SanitizeSequence(Str(s + t)) == Some(Remove(s, '-') + Remove(t, '-'))
  {
    RemoveAppend(s, t, '-');
  }

  /** A character other than '-' survives, in place. */
  lemma SanitizeKeepsOtherCharacters(s: string, t: string, c: char)
    requires c != '-'
    ensures SanitizeSequence(Str(s + [c] + t)) == Some(Remove(s, '-') + [c] + Remove(t, '-'))
  {
    RemoveAppend(s + [c], t, '-');
    RemoveAppend(s, [c], '-');
    assert Remove([c], '-') == Remove([], '-') + [c];
  }

  /** Sanitizing again changes nothing once the first result is a non-empty str. */
  lemma SanitizeIdempotent(v: Value)
    requires SanitizeSequence(v).Some? && SanitizeSequence(v).value != ""
    ensures SanitizeSequence(Str(SanitizeSequence(v).value)) == SanitizeSequence(v)
  {
    RemoveAbsent(SanitizeSequence(v).value, '-');
  }

  /** On an all-dash input the function is not idempotent: '' and then None. */
  lemma SanitizeAllDashes()
    ensures SanitizeSequence(Str("---")) == Some("")
    ensures SanitizeSequence(Str("")) == None
  {
    assert Remove("---", '-') == Remove("--", '-') + [];
    assert Remove("--", '-') == Remove("-", '-') + [];
  }
}
