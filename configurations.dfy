/** The dslNameConverter bean: it turns a step phrase into the name of a
    Maybe constant ("is not" to "IS_NOT") and back. */
module Configurations {
  import opened Text

  /** A string in constant-name form: no space and no lower-case letter. */
  predicate IsConstantName(s: string)
  {
    forall i :: 0 <= i < |s| ==> s[i] != ' ' && !IsLower(s[i])
  }

  /** A string in phrase form: no underscore and no upper-case letter. */
  predicate IsPhrase(s: string)
  {
    forall i :: 0 <= i < |s| ==> s[i] != '_' && !IsUpper(s[i])
  }

  /** doForward: upper-case, then every space becomes an underscore. */
  function Forward(s: string): (r: string)
    ensures |r| == |s|
    ensures IsConstantName(r)
    ensures forall i :: 0 <= i < |s| ==> (s[i] == ' ' ==> r[i] == '_')
  {
    Replace(ToUpper(s), ' ', '_')
  }

  /** doBackward: lower-case, then every underscore becomes a space. */
  function Backward(s: string): (r: string)
    ensures |r| == |s|
    ensures IsPhrase(r)
    ensures forall i :: 0 <= i < |s| ==> (s[i] == '_' ==> r[i] == ' ')
  {
    Replace(ToLower(s), '_', ' ')
  }

  /** Forward leaves a constant name as it is. */
  lemma ForwardFixesConstantNames(s: string)
    requires IsConstantName(s)
    ensures Forward(s) == s
  {
    var r := Forward(s);
    forall i | 0 <= i < |s| ensures r[i] == s[i] {
      assert ToUpper(s)[i] == UpperChar(s[i]);
    }
  }

  /** Converting twice is converting once. */
  lemma ForwardIdempotent(s: string)
    ensures Forward(Forward(s)) == Forward(s)
  {
    ForwardFixesConstantNames(Forward(s));
  }

  /** Forward does not see the case of its input. */
  lemma ForwardIgnoresCase(s: string)
    ensures Forward(ToUpper(s)) == Forward(s)
    ensures Forward(ToLower(s)) == Forward(s)
  {
    var u, l := ToUpper(s), ToLower(s);
    forall i | 0 <= i < |s| ensures Forward(u)[i] == Forward(s)[i] && Forward(l)[i] == Forward(s)[i] {
      assert ToUpper(u)[i] == UpperChar(u[i]) && ToUpper(l)[i] == UpperChar(l[i]);
      assert ToUpper(s)[i] == UpperChar(s[i]);
    }
  }

  /** A phrase survives the round trip through its constant name. */
  lemma BackwardForward(s: string)
    requires IsPhrase(s)
    ensures Backward(Forward(s)) == s
  {
    var f := Forward(s);
    var r := Backward(f);
    forall i | 0 <= i < |s| ensures r[i] == s[i] {
      assert ToUpper(s)[i] == UpperChar(s[i]);
      assert ToLower(f)[i] == LowerChar(f[i]);
    }
  }

  /** A constant name survives the round trip through its phrase. */
  lemma ForwardBackward(s: string)
    requires IsConstantName(s)
    ensures Forward(Backward(s)) == s
  {
    var b := Backward(s);
    var r := Forward(b);
    forall i | 0 <= i < |s| ensures r[i] == s[i] {
      assert ToLower(s)[i] == LowerChar(s[i]);
      assert ToUpper(b)[i] == UpperChar(b[i]);
    }
  }
}
