/** The two string operations the watchlist commands apply to their arguments. */
module Text {

  /** Upper-case counterpart of an ASCII letter; every other character is left as it is. */
  function UpperChar(c: char): char
  {
    if 'a' <= c <= 'z' then (c as int - 32) as char else c
  }

  /** `str.upper()` restricted to ASCII: every lower-case letter is replaced by its capital. */
  function Upper(s: string): (r: string)
    ensures |r| == |s|
    ensures forall i :: 0 <= i < |s| ==> r[i] == UpperChar(s[i])
    ensures forall i :: 0 <= i < |r| ==> !('a' <= r[i] <= 'z')
  {
    if s == [] then [] else [UpperChar(s[0])] + Upper(s[1..])
  }

  /** Normalising twice is normalising once, so a symbol stored upper-cased is found again
      whatever the case of the argument that names it later. */
  lemma UpperIdempotent(s: string)
    ensures Upper(Upper(s)) == Upper(s)
  {
  }

  /** Sum of the lengths of the given words. */
  function TotalLength(parts: seq<string>): nat
  {
    if parts == [] then 0 else |parts[0]| + TotalLength(parts[1..])
  }

  /** `" ".join(parts)`: the words in order with one space between neighbours. */
  function JoinWords(parts: seq<string>): (r: string)
    ensures parts == [] ==> r == ""
    ensures parts != [] ==> |r| == TotalLength(parts) + |parts| - 1
    ensures parts != [] ==> parts[0] <= r
    ensures |parts| == 1 ==> r == parts[0]
  {
    if parts == [] then ""
    else if |parts| == 1 then parts[0]
    else parts[0] + " " + JoinWords(parts[1..])
  }

  /** Adding a word at the end appends a space and that word, so together with the
      empty and one-word cases the joined name is fixed word by word, in order. */
  lemma {:induction false} JoinWordsSnoc(parts: seq<string>, w: string)
    requires parts != []
    ensures JoinWords(parts + [w]) == JoinWords(parts) + " " + w
  {
    if |parts| > 1 {
      assert (parts + [w])[1..] == parts[1..] + [w];
      JoinWordsSnoc(parts[1..], w);
    }
  }
}
