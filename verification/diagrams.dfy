/**
 * The stateful part of the class diagram: the diagram container, the
 * dependent sequence diagrams it notifies, the class boxes (`CDClass`) and
 * the relationship edges between them (`CDNode`).
 */
module Diagrams {
  import opened Wrappers
  import opened JavaInt
  import opened Geometry
  import opened Members
  import opened Lookup

  /**
   * A class diagram: its classes in order (a class's position is its index)
   * and the sequence diagrams that depend on it. `reevaluated` records, in
   * call order, every message asked to re-check its consistency against this
   * diagram; the check itself belongs to the sequence-diagram side.
   */
  class ClassDiagram {
    var classes: seq<CDClass>
    var sequenceDiagrams: seq<SequenceDiagram>
    ghost var reevaluated: seq<SDMessage>

    constructor (classes: seq<CDClass>, sequenceDiagrams: seq<SequenceDiagram>)
      ensures this.classes == classes && this.sequenceDiagrams == sequenceDiagrams
      ensures reevaluated == []
    {
      this.classes := classes;
      this.sequenceDiagrams := sequenceDiagrams;
      reevaluated := [];
    }
  }

  /** A sequence diagram, seen only through its list of messages. */
  class SequenceDiagram {
    var messages: seq<SDMessage>

    constructor (messages: seq<SDMessage>)
      ensures this.messages == messages
    {
      this.messages := messages;
    }
  }

  /** A sequence-diagram message, seen only through its consistency signal. */
  class SDMessage {
    constructor ()
    {
    }

    /** Re-check this message against `cd`; the call is recorded, its verdict is not modelled. */
    method SetMarkedInconsistent(cd: ClassDiagram)
      modifies cd`reevaluated
      ensures cd.reevaluated == old(cd.reevaluated) + [this]
    {
      cd.reevaluated := cd.reevaluated + [this];
    }
  }

  /** The messages of `sds`, diagram by diagram, each diagram's messages in order. */
  ghost function Sweep(sds: seq<SequenceDiagram>): seq<SDMessage>
    reads sds
  {
    if sds == [] then [] else Sweep(sds[..|sds| - 1]) + sds[|sds| - 1].messages
  }

  /** The number of messages over all of `sds`. */
  ghost function MessageCount(sds: seq<SequenceDiagram>): nat
    reads sds
  {
    if sds == [] then 0 else MessageCount(sds[..|sds| - 1]) + |sds[|sds| - 1].messages|
  }

  /** A sweep visits as many messages as the diagrams hold. */
  lemma {:induction false} SweepLength(sds: seq<SequenceDiagram>)
    ensures |Sweep(sds)| == MessageCount(sds)
  {
    if sds != [] {
      SweepLength(sds[..|sds| - 1]);
    }
  }

  /**
   * Message `j` of diagram `i` is visited, at the position that follows all
   * messages of the diagrams before `i`; with SweepLength this makes every
   * message occurrence visited exactly once.
   */
  lemma {:induction false} SweepVisits(sds: seq<SequenceDiagram>, i: int, j: int)
    requires 0 <= i < |sds| && 0 <= j < |sds[i].messages|
    ensures |Sweep(sds[..i])| + j < |Sweep(sds)|
    ensures Sweep(sds)[|Sweep(sds[..i])| + j] == sds[i].messages[j]
  {
    var init := sds[..|sds| - 1];
    if i == |sds| - 1 {
      assert sds[..i] == init;
    } else {
      SweepVisits(init, i, j);
      assert init[..i] == sds[..i];
    }
  }

  /** A box of the class diagram: its name, parent, members and geometry. */
  class CDClass {
    var name: string
    /** Index of the parent class in a class diagram, -1 for none. */
    var parent: Int32
    var fields: seq<Member>
    var methods: seq<Member>
    var isInterface: bool
    var anchors: map<AnchorType, Point>
    var position: Point
    var width: Int32
    var height: Int32

    /** The anchors match the current position and size. */
    ghost predicate Valid()
      reads this`anchors, this`position, this`width, this`height
    {
      anchors == AnchorsOf(position, width, height)
    }

    /** An empty, non-interface class "defaultName" without parent: a 10 by 10 box at the origin. */
    constructor ()
      ensures Valid()
      ensures name == "defaultName" && parent == -1 && fields == [] && methods == [] && !isInterface
      ensures position == Point(0, 0) && width == 10 && height == 10
      ensures anchors == map[UP := Point(5, 0), RIGHT := Point(10, 5), DOWN := Point(5, 10), LEFT := Point(0, 5)]
    {
      name := "defaultName";
      isInterface := false;
      fields := [];
      methods := [];
      parent := -1;
      position := Point(0, 0);
      width := 10;
      height := 10;
      anchors := map[];
      new;
      SetAnchors();
    }

    /** A class with every property given; the anchors follow from the box. */
    constructor Filled(name: string, parent: Int32, fields: seq<Member>, methods: seq<Member>,
                       isInterface: bool, x: Int32, y: Int32, width: Int32, height: Int32)
      ensures Valid()
      ensures this.name == name && this.parent == parent && this.fields == fields
      ensures this.methods == methods && this.isInterface == isInterface
      ensures position == Point(x, y) && this.width == width && this.height == height
    {
      this.name := name;
      this.parent := parent;
      this.isInterface := isInterface;
      this.fields := fields;
      this.methods := methods;
      this.position := Point(x, y);
      this.width := width;
      this.height := height;
      this.anchors := map[];
      new;
      SetAnchors();
    }

    method SetName(name: string)
      modifies this`name
      ensures this.name == name
    {
      this.name := name;
    }

    /** Sets the parent index as given, without checking it. */
    method SetParentIndex(parentIdx: Int32)
      modifies this`parent
      ensures parent == parentIdx
    {
      parent := parentIdx;
    }

    /**
     * Sets the parent to the first position of `p` in `cd` by reference
     * identity, or to -1 when `p` is not there; afterwards ParentAsCDClass
     * gives back `p`, or null.
     */
    method SetParent(cd: ClassDiagram, p: CDClass?)
      requires |cd.classes| <= MAX
      modifies this`parent
      ensures parent == IndexOf(cd.classes, p)
      ensures ParentAsCDClass(cd) == if p in cd.classes then p else null
    {
      var i := 0;
      while i < |cd.classes|
        invariant 0 <= i <= |cd.classes|
        invariant p !in cd.classes[..i]
      {
        if p == cd.classes[i] {
          parent := i;
          return;
        }
        i := i + 1;
      }
      parent := -1;
    }

    method RemoveParent()
      modifies this`parent
      ensures parent == -1
    {
      parent := -1;
    }

    method SetFields(fields: seq<Member>)
      modifies this`fields
      ensures this.fields == fields
    {
      this.fields := fields;
    }

    method SetMethods(methods: seq<Member>)
      modifies this`methods
      ensures this.methods == methods
    {
      this.methods := methods;
    }

    /** Appends one field; adding to a list always succeeds. */
    method AddField(field: Member) returns (added: bool)
      modifies this`fields
      ensures added && fields == old(fields) + [field]
    {
      fields := fields + [field];
      added := true;
    }

    /** Appends one method; adding to a list always succeeds. */
    method AddMethod(m: Member) returns (added: bool)
      modifies this`methods
      ensures added && methods == old(methods) + [m]
    {
      methods := methods + [m];
      added := true;
    }

    method SetInterface(isInterface: bool)
      modifies this`isInterface
      ensures this.isInterface == isInterface
    {
      this.isInterface := isInterface;
    }

    method SetPosition(x: Int32, y: Int32)
      modifies this`position, this`anchors
      ensures position == Point(x, y) && Valid()
    {
      position := Point(x, y);
      SetAnchors();
    }

    method SetWidth(width: Int32)
      modifies this`width, this`anchors
      ensures this.width == width && Valid()
    {
      this.width := width;
      SetAnchors();
    }

    method SetHeight(height: Int32)
      modifies this`height, this`anchors
      ensures this.height == height && Valid()
    {
      this.height := height;
      SetAnchors();
    }

    /** Recomputes the four anchors from the box, one entry at a time. */
    method SetAnchors()
      modifies this`anchors
      ensures Valid()
    {
      var up := Point(Add(position.x, Half(width)), position.y);
      var right := Point(Add(position.x, width), Add(position.y, Half(height)));
      var down := Point(Add(position.x, Half(width)), Add(position.y, height));
      var left := Point(position.x, Add(position.y, Half(height)));
      anchors := anchors[UP := up];
      anchors := anchors[RIGHT := right];
      anchors := anchors[DOWN := down];
      anchors := anchors[LEFT := left];
      forall k: AnchorType
        ensures k in AnchorsOf(position, width, height) && k in anchors
             && anchors[k] == AnchorsOf(position, width, height)[k]
      {
        AnchorsTotal(position, width, height, k);
      }
      assert anchors.Keys == AnchorsOf(position, width, height).Keys;
    }

    /** The parent class in `cd`, or null when there is none. */
    function ParentAsCDClass(cd: ClassDiagram): (r: CDClass?)
      reads this`parent, cd`classes
      requires parent == -1 || 0 <= parent < |cd.classes|
      ensures r == null <==> parent == -1
      ensures r != null ==> r == cd.classes[parent]
    {
      if parent != -1 then cd.classes[parent] else null
    }

    /**
     * The methods this class overrides from its parent in `cd`, in this
     * class's order; None (Java's null) when there is no parent, which is
     * not the same as a parent overriding nothing.
     */
    method GetOverriddenMethods(cd: ClassDiagram) returns (r: Option<seq<Member>>)
      requires parent == -1 || 0 <= parent < |cd.classes|
      ensures r == None <==> parent == -1
      ensures r.Some? ==> r.value == Overridden(methods, cd.classes[parent].methods)
    {
      if parent != -1 {
        var parentClass := cd.classes[parent];
        var overridden := [];
        for i := 0 to |methods|
          invariant overridden == Overridden(methods[..i], parentClass.methods)
        {
          var m := methods[i];
          assert methods[..i + 1][..i] == methods[..i];
          if m in parentClass.methods && m.visibility != PRIVATE {
            overridden := overridden + [m];
          }
        }
        assert methods[..|methods|] == methods;
        return Some(overridden);
      }
      return None;
    }

    /** The point of one anchor: always the anchor's place on the current box. */
    function GetAnchorByKey(anchorType: AnchorType): (p: Point)
      reads this
      requires Valid()
      ensures anchorType == UP ==> p == Point(Add(position.x, Half(width)), position.y)
      ensures anchorType == RIGHT ==> p == Point(Add(position.x, width), Add(position.y, Half(height)))
      ensures anchorType == DOWN ==> p == Point(Add(position.x, Half(width)), Add(position.y, height))
      ensures anchorType == LEFT ==> p == Point(position.x, Add(position.y, Half(height)))
    {
      AnchorsTotal(position, width, height, anchorType);
      anchors[anchorType]
    }
  }

  /** The kind of a relationship (association, aggregation, ...), known by its numeric code. */
  datatype NodeType = NodeType(numVal: int)

  /** A relationship edge between two classes of a class diagram. */
  class CDNode {
    var from: CDClass?
    var fAnchor: AnchorType
    var to: CDClass?
    var tAnchor: AnchorType
    var fCard: string
    var tCard: string
    var nodeType: NodeType

    constructor (from: CDClass?, fAnchor: AnchorType, to: CDClass?, tAnchor: AnchorType,
                 fCard: string, tCard: string, nodeType: NodeType)
      ensures this.from == from && this.fAnchor == fAnchor && this.to == to && this.tAnchor == tAnchor
      ensures this.fCard == fCard && this.tCard == tCard && this.nodeType == nodeType
    {
      this.from := from;
      this.fAnchor := fAnchor;
      this.to := to;
      this.tAnchor := tAnchor;
      this.fCard := fCard;
      this.tCard := tCard;
      this.nodeType := nodeType;
    }

    method SetFAnchor(fAnchor: AnchorType)
      modifies this`fAnchor
      ensures this.fAnchor == fAnchor
    {
      this.fAnchor := fAnchor;
    }

    method SetTAnchor(tAnchor: AnchorType)
      modifies this`tAnchor
      ensures this.tAnchor == tAnchor
    {
      this.tAnchor := tAnchor;
    }

    method SetFCard(fCard: string)
      modifies this`fCard
      ensures this.fCard == fCard
    {
      this.fCard := fCard;
    }

    method SetTCard(tCard: string)
      modifies this`tCard
      ensures this.tCard == tCard
    {
      this.tCard := tCard;
    }

    method SetType(nodeType: NodeType)
      modifies this`nodeType
      ensures this.nodeType == nodeType
    {
      this.nodeType := nodeType;
    }

    /**
     * Rebinds the originating class and asks every message of every
     * sequence diagram of `cd` to re-check itself, even when `c` is the
     * current endpoint.
     */
    method SetFrom(c: CDClass?, cd: ClassDiagram)
      modifies this`from, cd`reevaluated
      ensures from == c
      ensures cd.reevaluated == old(cd.reevaluated) + Sweep(cd.sequenceDiagrams)
    {
      from := c;
      MarkAllInconsistent(cd);
    }

    /** Rebinds the terminating class, with the same full sweep as SetFrom. */
    method SetTo(c: CDClass?, cd: ClassDiagram)
      modifies this`to, cd`reevaluated
      ensures to == c
      ensures cd.reevaluated == old(cd.reevaluated) + Sweep(cd.sequenceDiagrams)
    {
      to := c;
      MarkAllInconsistent(cd);
    }

    /** The notification sweep shared by SetFrom and SetTo. */
    method MarkAllInconsistent(cd: ClassDiagram)
      modifies cd`reevaluated
      ensures cd.reevaluated == old(cd.reevaluated) + Sweep(cd.sequenceDiagrams)
    {
      var sds := cd.sequenceDiagrams;
      for i := 0 to |sds|
        invariant cd.reevaluated == old(cd.reevaluated) + Sweep(sds[..i])
      {
        var sd := sds[i];
        assert sds[..i + 1][..i] == sds[..i];
        for j := 0 to |sd.messages|
          invariant cd.reevaluated == old(cd.reevaluated) + Sweep(sds[..i]) + sd.messages[..j]
        {
          sd.messages[j].SetMarkedInconsistent(cd);
          assert sd.messages[..j + 1] == sd.messages[..j] + [sd.messages[j]];
        }
        assert sd.messages[..|sd.messages|] == sd.messages;
      }
      assert sds[..|sds|] == sds;
    }

    /** Position of the originating class in `cd` by reference identity, or -1. */
    method GetFromAsInt(cd: ClassDiagram) returns (r: int)
      ensures r == IndexOf(cd.classes, from)
    {
      r := FirstIndex(cd.classes, from);
    }

    /** Position of the terminating class in `cd` by reference identity, or -1. */
    method GetToAsInt(cd: ClassDiagram) returns (r: int)
      ensures r == IndexOf(cd.classes, to)
    {
      r := FirstIndex(cd.classes, to);
    }
  }

  /** The scan of GetFromAsInt and GetToAsInt: the first index holding `c`, or -1. */
  method FirstIndex(classes: seq<CDClass>, c: CDClass?) returns (r: int)
    ensures r == IndexOf(classes, c)
  {
    for i := 0 to |classes|
      invariant c !in classes[..i]
    {
      if classes[i] == c {
        return i;
      }
    }
    assert classes[..|classes|] == classes;
    return -1;
  }
}
