/** The string operations the stores use for case-insensitive matching:
    `toLowerCase` (restricted to the ASCII and Latin-1 capitals) and
    `includes`. */
module Text {

  /** An upper-case letter of ASCII or Latin-1 (À to Þ, but not the
      multiplication sign ×) becomes its lower-case form, 32 code points on. */
  function LowerChar(c: char): char
  {
    if 'A' <= c <= 'Z' || ('\U{C0}' <= c <= '\U{DE}' && c != '\U{D7}') then (c as int + 32) as char else c
  }

  /** `String.prototype.toLowerCase` on ASCII and Latin-1: every upper-case
      letter is mapped to its lower-case form, nothing else changes. */
  function ToLower(s: string): (r: string)
    ensures |r| == |s|
    ensures forall i :: 0 <= i < |s| ==> r[i] == LowerChar(s[i])
    ensures forall i :: 0 <= i < |r| ==> !('A' <= r[i] <= 'Z')
    ensures forall i :: 0 <= i < |r| ==> !('\U{C0}' <= r[i] <= '\U{DE}' && r[i] != '\U{D7}')
  {
    seq(|s|, i requires 0 <= i < |s| => LowerChar(s[i]))
  }

  /** Accented Latin-1 capitals fold as `toLowerCase` folds them: "École"
      and "ÉCOLE" both become "école". */
  lemma AccentedCapitalsFold()
    ensures ToLower("École") == "école"
    ensures ToLower("ÉCOLE") == "école"
  {
    assert LowerChar('É') == 'é';
  }

  /** Lower-casing is idempotent, so comparing lower-cased strings is an
      equivalence that ignores case. */
  lemma ToLowerIdempotent(s: string)
    ensures ToLower(ToLower(s)) == ToLower(s)
  {
    var t := ToLower(s);
    assert forall i :: 0 <= i < |t| ==> LowerChar(t[i]) == t[i];
  }

  /** `String.prototype.includes`: `needle` occurs in `hay` at some offset,
      i.e. it is a prefix of some suffix of `hay`. */
  predicate Contains(hay: string, needle: string)
    decreases |hay|
  {
    needle <= hay || (|hay| > 0 && Contains(hay[1..], needle))
  }
}
