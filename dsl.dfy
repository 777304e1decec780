/** The affirmation phrases of the step language (enum dev.hiberbee.dsl.Maybe)
    and the enum's name lookup that the phrase parser relies on. */
module Dsl {
  import opened Wrappers
  import Text

  /** The eleven phrase variants, in declaration order. */
  datatype Maybe =
    | Contains | ShouldBe | ShouldNotBe | IsNot | Is | HasNot | Has | Have | HaveNot | Are | AreNot
  {
    /** The Java constant's name, as Enum.name() returns it: upper-case
        words joined by underscores. */
    function Name(): (r: string)
      ensures |r| >= 2 && r[0] != '_' && r[|r| - 1] != '_'
      ensures forall i :: 0 <= i < |r| ==> r[i] == '_' || Text.IsUpper(r[i])
    {
      match this
      case Contains => "CONTAINS"
      case ShouldBe => "SHOULD_BE"
      case ShouldNotBe => "SHOULD_NOT_BE"
      case IsNot => "IS_NOT"
      case Is => "IS"
      case HasNot => "HAS_NOT"
      case Has => "HAS"
      case Have => "HAVE"
      case HaveNot => "HAVE_NOT"
      case Are => "ARE"
      case AreNot => "ARE_NOT"
    }

    /** The predicate chain isEqual(IS).or(isEqual(ARE))...or(isEqual(CONTAINS))
        applied to this constant. */
    predicate Affirmative()
    {
      this == Is || this == Are || this == ShouldBe || this == Has || this == Have || this == Contains
    }

    /** predicate(): the Boolean predicate that accepts exactly the value of
        Affirmative(). */
    function Predicate(): (r: bool -> bool)
      ensures forall b :: r(b) == (b == (this in {Is, Are, ShouldBe, Has, Have, Contains}))
    {
      b => b == Affirmative()
    }

    /** yes(): the phrase affirms. */
    function Yes(): (r: bool)
      ensures r <==> this in {Is, Are, ShouldBe, Has, Have, Contains}
    {
      Predicate()(true)
    }

    /** no(): the phrase denies; always the opposite of yes(). */
    function No(): (r: bool)
      ensures r == !Yes()
      ensures r <==> this in {IsNot, HasNot, HaveNot, AreNot, ShouldNotBe}
    {
      Predicate()(false)
    }

    /** plural(): only the plural affirmatives ARE and HAVE. */
    function Plural(): (r: bool)
      ensures r ==> Yes()
      ensures r ==> Name() in {"ARE", "HAVE"}
    {
      this == Are || this == Have
    }

    /** optional(): always present, holding yes(). */
    function Optional(): (r: Option<bool>)
      ensures r.Some? && r.value == Yes()
    {
      Some(Yes())
    }
  }

  /** Maybe.values(), in declaration order. */
  const Values: seq<Maybe> :=
    [Contains, ShouldBe, ShouldNotBe, IsNot, Is, HasNot, Has, Have, HaveNot, Are, AreNot]

  /** Values lists every constant exactly once. */
  lemma ValuesComplete(m: Maybe)
    ensures m in Values
    ensures |Values| == 11
  {
  }

  /** Distinct constants have distinct names. */
  lemma NameInjective(m1: Maybe, m2: Maybe)
    ensures m1.Name() == m2.Name() ==> m1 == m2
  {
  }

  /** A linear search of `vs` for the constant named `name`. */
  function FindByName(vs: seq<Maybe>, name: string): (r: Option<Maybe>)
    ensures r.Some? ==> r.value in vs && r.value.Name() == name
    ensures r.None? ==> forall i :: 0 <= i < |vs| ==> vs[i].Name() != name
  {
    if vs == [] then None
    else if vs[0].Name() == name then Some(vs[0])
    else FindByName(vs[1..], name)
  }

  /** Enum.valueOf(Maybe.class, name), with None for the
      IllegalArgumentException it throws when no constant has that name. */
  function ValueOf(name: string): (r: Option<Maybe>)
    ensures forall m: Maybe :: r == Some(m) <==> m.Name() == name
  {
    var r := FindByName(Values, name);
    forall m: Maybe ensures r == Some(m) <==> m.Name() == name {
      ValuesComplete(m);
      if r.Some? { NameInjective(m, r.value); }
    }
    r
  }

  /** plural() holds for ARE and HAVE and no other constant. */
  lemma PluralExactly(m: Maybe)
    ensures m.Plural() <==> m == Are || m == Have
  {
  }

  /** The five negative constants deny and do not affirm. */
  lemma NegativesDeny()
    ensures forall m :: m in {IsNot, HasNot, HaveNot, AreNot, ShouldNotBe} ==> !m.Yes() && m.No()
  {
  }

  /** A constant denies exactly when its name contains NOT. */
  lemma DeniesIffNameSaysNot(m: Maybe)
    ensures m.No() <==> Text.Contains(m.Name(), "NOT")
  {
    var n := m.Name();
    if m.No() {
      var k := match m
        case ShouldNotBe => 7
        case IsNot => 3
        case HasNot => 4
        case HaveNot => 5
        case _ => 4;
      assert n[k] == 'N' && n[k + 1] == 'O' && n[k + 2] == 'T';
      assert n[k..k + 3] == "NOT";
      assert Text.OccursAt(n, "NOT", k);
    } else {
      forall k | 0 <= k <= |n| - 3 ensures !Text.OccursAt(n, "NOT", k) {
        assert n[k..k + 3][0] == n[k];
        assert n[k..k + 3][1] == n[k + 1];
      }
    }
  }
}
