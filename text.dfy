/** The operations of java.lang.String that the step code relies on, over
    ASCII: case mapping touches only the letters 'a'..'z' and 'A'..'Z'. */
module Text {

  predicate IsUpper(c: char) { 'A' <= c <= 'Z' }

  predicate IsLower(c: char) { 'a' <= c <= 'z' }

  /** Character.toUpperCase on ASCII. */
  function UpperChar(c: char): (r: char)
    ensures !IsLower(r)
    ensures IsLower(c) ==> IsUpper(r) && LowerChar(r) == c
    ensures !IsLower(c) ==> r == c
  {
    if IsLower(c) then (c as int - 32) as char else c
  }

  /** Character.toLowerCase on ASCII. */
  function LowerChar(c: char): (r: char)
    ensures !IsUpper(r)
    ensures IsUpper(c) ==> IsLower(r) && (r as int - 32) as char == c
    ensures !IsUpper(c) ==> r == c
  {
    if IsUpper(c) then (c as int + 32) as char else c
  }

  /** String.toUpperCase: every character upper-cased, length unchanged. */
  function ToUpper(s: string): (r: string)
    ensures |r| == |s|
    ensures forall i :: 0 <= i < |s| ==> r[i] == UpperChar(s[i])
  {
    if s == [] then [] else [UpperChar(s[0])] + ToUpper(s[1..])
  }

  /** String.toLowerCase: every character lower-cased, length unchanged. */
  function ToLower(s: string): (r: string)
    ensures |r| == |s|
    ensures forall i :: 0 <= i < |s| ==> r[i] == LowerChar(s[i])
  {
    if s == [] then [] else [LowerChar(s[0])] + ToLower(s[1..])
  }

  /** String.replace(char, char): every occurrence of `from` becomes `to`,
      every other character stays where it is. */
  function Replace(s: string, from: char, to: char): (r: string)
    ensures |r| == |s|
    ensures forall i :: 0 <= i < |s| ==> r[i] == if s[i] == from then to else s[i]
    ensures from != to ==> forall i :: 0 <= i < |r| ==> r[i] != from
  {
    if s == [] then [] else [if s[0] == from then to else s[0]] + Replace(s[1..], from, to)
  }

  /** `t` occurs in `s` starting at index `k`. */
  predicate OccursAt(s: string, t: string, k: int)
  {
    0 <= k && k + |t| <= |s| && s[k..k + |t|] == t
  }

  /** String.contains: some index of `s` starts an occurrence of `t`
      (so the empty string is contained in every string). */
  function Contains(s: string, t: string): (r: bool)
    ensures r <==> exists k :: OccursAt(s, t, k)
    decreases |s|
  {
    if |t| > |s| then
      assert forall k :: !OccursAt(s, t, k);
      false
    else if s[..|t|] == t then
      assert OccursAt(s, t, 0);
      true
    else
      var rest := Contains(s[1..], t);
      assert forall k :: OccursAt(s[1..], t, k) ==> OccursAt(s, t, k + 1) by {
        forall k | OccursAt(s[1..], t, k) ensures OccursAt(s, t, k + 1) {
          assert s[k + 1..k + 1 + |t|] == s[1..][k..k + |t|];
        }
      }
      assert forall k :: OccursAt(s, t, k) ==> OccursAt(s[1..], t, k - 1) by {
        forall k | OccursAt(s, t, k) ensures OccursAt(s[1..], t, k - 1) {
          assert k != 0;
          var j := k - 1;
          assert s[1..][j..j + |t|] == s[j + 1..j + 1 + |t|];
        }
      }
      rest
  }

  /** Every string contains itself. */
  lemma ContainsItself(s: string)
    ensures Contains(s, s)
  {
    assert OccursAt(s, s, 0);
  }
}
