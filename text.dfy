/** The string operations `searchContacts` uses: `toLowerCase()` and
    `includes()`. Lowercasing covers the Latin letters A-Z and the Russian
    alphabet (А-Я and Ё), the scripts the stored contacts are written in. */
module Text {

  predicate IsUpperLatin(c: char) { 'A' <= c <= 'Z' }

  predicate IsUpperCyrillic(c: char) { 'А' <= c <= 'Я' }

  /** Lower case of one character: a capital becomes its small letter, which
      in both alphabets lies 32 code points above it (Ё, outside the run
      А-Я, becomes ё); every other character is its own lower case. */
  function LowerChar(c: char): (r: char)
    ensures !IsUpperLatin(r) && !IsUpperCyrillic(r) && r != 'Ё'
    ensures IsUpperLatin(c) ==> 'a' <= r <= 'z' && r as int == c as int + 32
    ensures IsUpperCyrillic(c) ==> 'а' <= r <= 'я' && r as int == c as int + 32
    ensures c == 'Ё' ==> r == 'ё'
    ensures !IsUpperLatin(c) && !IsUpperCyrillic(c) && c != 'Ё' ==> r == c
  {
    if IsUpperLatin(c) || IsUpperCyrillic(c) then (c as int + 32) as char
    else if c == 'Ё' then 'ё'
    else c
  }

  /** Character-wise lower case of a string (`toLowerCase()`). */
  function Lower(s: string): (r: string)
    ensures |r| == |s|
    ensures forall i :: 0 <= i < |s| ==> r[i] == LowerChar(s[i])
  {
    seq(|s|, i requires 0 <= i < |s| => LowerChar(s[i]))
  }

  /** Lowering an already lowered string changes nothing. */
  lemma LowerIdempotent(s: string)
    ensures Lower(Lower(s)) == Lower(s)
  {
    var once := Lower(s);
    assert forall i :: 0 <= i < |once| ==> LowerChar(once[i]) == once[i];
  }

  /** The block of `hay` starting at position `k` is `needle`. */
  predicate OccursAt(hay: string, needle: string, k: int)
    requires 0 <= k <= |hay| - |needle|
  {
    hay[k..k + |needle|] == needle
  }

  /** `needle` occurs in `hay` as a contiguous block (`hay.includes(needle)`):
      never when it is longer, always when it is empty, as in JavaScript. */
  predicate Includes(hay: string, needle: string)
    ensures Includes(hay, needle) ==> |needle| <= |hay|
    ensures |needle| == 0 ==> Includes(hay, needle)
  {
    assert |needle| == 0 ==> OccursAt(hay, needle, 0);
    exists k :: 0 <= k <= |hay| - |needle| && OccursAt(hay, needle, k)
  }

  /** Every string includes itself. */
  lemma IncludesItself(hay: string)
    ensures Includes(hay, hay)
  {
    assert OccursAt(hay, hay, 0);
  }
}
