/** Whole-diagram scenarios, stated through the contracts of the class-diagram model alone. */
module Scenarios {
  import opened Wrappers
  import opened Geometry
  import opened Members
  import opened Diagrams

  /**
   * Animal declares `speak`; Dog, whose parent is Animal, adds `bark` and
   * `speak`; Dog is then moved to (50, 50) and resized to 40 by 20.
   */
  method AnimalDog() returns (overridden: Option<seq<Member>>, dogAnchors: map<AnchorType, Point>)
    ensures overridden == Some([Member("speak", "void", PUBLIC)])
    ensures dogAnchors == map[UP := Point(70, 50), RIGHT := Point(90, 60), DOWN := Point(70, 70), LEFT := Point(50, 60)]
  {
    var speak, bark := Member("speak", "void", PUBLIC), Member("bark", "void", PUBLIC);
    var animal := new CDClass();
    var dog := new CDClass();
    var cd := new ClassDiagram([animal, dog], []);
    var _ := animal.AddMethod(speak);
    dog.SetParent(cd, animal);
    var _ := dog.AddMethod(bark);
    var _ := dog.AddMethod(speak);
    overridden := dog.GetOverriddenMethods(cd);
    DogOverridesSpeak();
    dog.SetPosition(50, 50);
    dog.SetWidth(40);
    dog.SetHeight(20);
    MovedBoxAnchors();
    dogAnchors := dog.anchors;
  }

  /**
   * A class without parent yields None; once it has a parent that declares
   * nothing, it yields an empty list instead.
   */
  method NoParentVersusNoOverride() returns (before: Option<seq<Member>>, after: Option<seq<Member>>)
    ensures before == None && after == Some([])
  {
    var base := new CDClass();
    var sub := new CDClass();
    var _ := sub.AddMethod(Member("run", "void", PUBLIC));
    var cd := new ClassDiagram([base, sub], []);
    before := sub.GetOverriddenMethods(cd);
    sub.SetParent(cd, base);
    after := sub.GetOverriddenMethods(cd);
  }

  /**
   * Rebinding an edge to the class it already starts from still sweeps
   * every message of every dependent sequence diagram, a message shared by
   * two diagrams once per diagram.
   */
  method RebindToSameEndpoint() returns (cd: ClassDiagram, m1: SDMessage, m2: SDMessage, fromIndex: int)
    ensures cd.reevaluated == [m1, m2, m1]
    ensures fromIndex == 0
  {
    var a := new CDClass();
    var b := new CDClass();
    var node := new CDNode(a, RIGHT, b, LEFT, "1", "0..*", NodeType(0));
    m1 := new SDMessage();
    m2 := new SDMessage();
    var sd1 := new SequenceDiagram([m1, m2]);
    var sd2 := new SequenceDiagram([m1]);
    cd := new ClassDiagram([a, b], [sd1, sd2]);
    assert [sd1, sd2][..1] == [sd1] && [sd1][..0] == [];
    assert Sweep([sd1]) == [m1, m2];
    assert Sweep([sd1, sd2]) == [m1, m2, m1];
    node.SetFrom(a, cd);
    fromIndex := node.GetFromAsInt(cd);
    assert [a, b][..0] == [] && a in [a, b];
  }

  /** An edge rebound to a class outside the diagram reports that end at -1. */
  method RebindToStrayClass() returns (toIndex: int)
    ensures toIndex == -1
  {
    var a := new CDClass();
    var b := new CDClass();
    var stray := new CDClass();
    var node := new CDNode(a, RIGHT, b, LEFT, "1", "1", NodeType(0));
    var cd := new ClassDiagram([a, b], []);
    node.SetTo(stray, cd);
    toIndex := node.GetToAsInt(cd);
    assert stray !in [a, b];
  }
}
