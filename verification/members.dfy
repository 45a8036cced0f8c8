/**
 * Fields and methods of a class (the `CDField` entries) and the override
 * resolver's selection of a subclass's methods against its parent's.
 */
module Members {
  datatype Visibility = PUBLIC | PROTECTED | PRIVATE | PACKAGE

  /** A field or method entry; two entries are the same when all their components are. */
  datatype Member = Member(name: string, memberType: string, visibility: Visibility)

  /** `m` overrides a method of the parent: the parent declares an equal method and `m` is not private. */
  predicate Overrides(m: Member, parentMethods: seq<Member>)
  {
    m in parentMethods && m.visibility != PRIVATE
  }

  /** The methods of a subclass that override a parent method, in the subclass's order. */
  function Overridden(methods: seq<Member>, parentMethods: seq<Member>): seq<Member>
  {
    if methods == [] then []
    else
      var last := methods[|methods| - 1];
      Overridden(methods[..|methods| - 1], parentMethods)
        + (if Overrides(last, parentMethods) then [last] else [])
  }

  /** `a` is `b` with some entries left out and the rest kept in order. */
  predicate IsSubsequence<T(==)>(a: seq<T>, b: seq<T>)
  {
    if a == [] then true
    else if b == [] then false
    else if a[|a| - 1] == b[|b| - 1] then IsSubsequence(a[..|a| - 1], b[..|b| - 1])
    else IsSubsequence(a, b[..|b| - 1])
  }

  /** A method is in the result exactly when the subclass declares it and it overrides. */
  lemma {:induction false} OverriddenMembers(methods: seq<Member>, parentMethods: seq<Member>)
    ensures forall m :: m in Overridden(methods, parentMethods) <==> m in methods && Overrides(m, parentMethods)
  {
    if methods != [] {
      var init := methods[..|methods| - 1];
      OverriddenMembers(init, parentMethods);
      assert methods == init + [methods[|methods| - 1]];
    }
  }

  /** Each overriding method occurs as often as the subclass declares it; the others not at all. */
  lemma {:induction false} OverriddenMultiplicity(methods: seq<Member>, parentMethods: seq<Member>)
    ensures forall m :: multiset(Overridden(methods, parentMethods))[m]
                       == (if Overrides(m, parentMethods) then multiset(methods)[m] else 0)
  {
    if methods != [] {
      var init := methods[..|methods| - 1];
      OverriddenMultiplicity(init, parentMethods);
      assert methods == init + [methods[|methods| - 1]];
    }
  }

  /** The result keeps the subclass's order. */
  lemma {:induction false} OverriddenIsSubsequence(methods: seq<Member>, parentMethods: seq<Member>)
    ensures IsSubsequence(Overridden(methods, parentMethods), methods)
  {
    if methods != [] {
      var init, last := methods[..|methods| - 1], methods[|methods| - 1];
      OverriddenIsSubsequence(init, parentMethods);
      var r := Overridden(init, parentMethods);
      if !Overrides(last, parentMethods) {
        assert Overridden(methods, parentMethods) == r;
        OverriddenMembers(init, parentMethods);
        assert r != [] ==> r[|r| - 1] in r;
      } else {
        assert Overridden(methods, parentMethods) == r + [last];
        assert (r + [last])[..|r|] == r;
      }
    }
  }

  /** Resolving a concatenation resolves each part and concatenates, so no entry moves. */
  lemma {:induction false} OverriddenConcat(a: seq<Member>, b: seq<Member>, parentMethods: seq<Member>)
    ensures Overridden(a + b, parentMethods) == Overridden(a, parentMethods) + Overridden(b, parentMethods)
  {
    if b == [] {
      assert a + b == a;
    } else {
      var init := b[..|b| - 1];
      OverriddenConcat(a, init, parentMethods);
      assert (a + b)[..|a + b| - 1] == a + init;
    }
  }

  /**
   * Parent {a public, b private}, subclass {a public, b private, c public}:
   * only `a` is overridden, since the subclass's own `b` is private.
   */
  lemma PrivateMethodNotOverridden()
    ensures var a, b, c := Member("a", "void", PUBLIC), Member("b", "void", PRIVATE), Member("c", "void", PUBLIC);
      Overridden([a, b, c], [a, b]) == [a]
  {
    var a, b, c := Member("a", "void", PUBLIC), Member("b", "void", PRIVATE), Member("c", "void", PUBLIC);
    assert [a, b, c][..2] == [a, b] && [a, b][..1] == [a] && [a][..0] == [];
    assert Overridden([a], [a, b]) == [a];
    assert Overridden([a, b], [a, b]) == [a];
    assert c !in [a, b];
  }

  /** Animal declares `speak`; Dog declares `bark` and `speak`: only `speak` is overridden. */
  lemma DogOverridesSpeak()
    ensures var speak, bark := Member("speak", "void", PUBLIC), Member("bark", "void", PUBLIC);
      Overridden([bark, speak], [speak]) == [speak]
  {
    var speak, bark := Member("speak", "void", PUBLIC), Member("bark", "void", PUBLIC);
    assert [bark, speak][..1] == [bark] && [bark][..0] == [];
    assert bark !in [speak];
    assert Overridden([bark], [speak]) == [];
  }
}
