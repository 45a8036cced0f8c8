# Class-diagram core of a UML diagram editor

This project models the class-diagram core of a UML editor written in Java
(package `classDiagram`): the class box `CDClass` and the relationship edge
`CDNode`. A class box keeps a name, a parent given by its index in the class
diagram (-1 for none), lists of fields and methods, an interface flag, and
a geometry: upper-left position, width, height. Four anchor points (UP,
RIGHT, DOWN, LEFT) are derived from the geometry, where edges attach. Every
geometry setter recomputes them at once. The override resolver picks the
methods of a class that re-declare, non-privately, a method of its immediate
parent. An edge joins two classes at given anchors. It carries a cardinality
label at each end and a kind. Rebinding either end asks every message of
every dependent sequence diagram to re-check its consistency. An edge also
reports each end as a position in the diagram, found by reference identity.

Layout:

- `java_int.dfy` (module `JavaInt`): Java `int` values, wrapping `+` and `-`, and `/ 2` truncating toward zero.
- `geometry.dfy` (module `Geometry`): anchor types, points, the anchor map of a box, and the box read back from its anchors.
- `members.dfy` (module `Members`): the `CDField` entries, and the override selection as a function with its lemmas.
- `lookup.dfy` (module `Lookup`): first position by `==`, which is reference identity on objects.
- `diagrams.dfy` (module `Diagrams`): the classes `CDClass` and `CDNode`, and stand-ins for the class diagram, sequence diagrams and messages. They form one module because the Java types refer to one another.
- `scenarios.dfy` (module `Scenarios`): whole-diagram scenarios checked against the contracts alone.
- `wrappers.dfy` (module `Wrappers`): `Option`, standing for a Java `null` result.

`CDClass` keeps the invariant `Valid()`: the anchor map equals
`AnchorsOf(position, width, height)`. `Valid()` reads only the geometry and
anchor fields. So the setters that touch other fields keep it by their
`modifies` frames alone. The setters that touch the geometry re-establish it.

The call `SDMessage.setMarkedInconsistent(cd)` is modelled by
`SDMessage.SetMarkedInconsistent(cd)`. It appends the message to a ghost log
`reevaluated` on the diagram `cd`, and its verdict on the message is not
modelled. The sweep of `setFrom`/`setTo` is then stated exactly: the log grows
by `Sweep(cd.sequenceDiagrams)`, which is every message of every diagram, in
iteration order.

Two points about the code that the model keeps:

- Anchor midpoints use Java's `/`, which truncates toward zero. Floor division would differ for negative odd sizes (`Geometry.NegativeWidthTruncates`).
- A parent index that does not resolve makes the Java code throw. The model makes a resolvable parent a precondition of `ParentAsCDClass` and `GetOverriddenMethods`.

## Model

| member | source | states |
|---|---|---|
| JavaInt.Add | src/main/java/classDiagram/CDClass.java:171-186 | Java `int` addition used for the anchors: the exact sum when it fits in 32 bits, otherwise the sum shifted by 2^32 into range |
| JavaInt.Half | src/main/java/classDiagram/CDClass.java:172 | Java `w/2`: the remainder `w - 2r` is 0 or ±1 with the sign of `w` (rounding toward zero) |
| JavaInt.HalfBetween | src/main/java/classDiagram/CDClass.java:172 | half a size lies between 0 and the size, so a midpoint stays within the box's extent |
| Geometry.AnchorsTotal | src/main/java/classDiagram/CDClass.java:187-190 | the anchor map has a point for every anchor type |
| Geometry.AnchorsOnEdges | src/main/java/classDiagram/CDClass.java:170-191 | UP is on the top edge and DOWN on the bottom edge, in one column; LEFT is on the left edge and RIGHT on the right edge, in one row |
| Geometry.AnchorsWithoutOverflow | src/main/java/classDiagram/CDClass.java:170-191 | without overflow the anchors are UP=(x+w/2,y), RIGHT=(x+w,y+h/2), DOWN=(x+w/2,y+h), LEFT=(x,y+h/2), with floor halves for non-negative sizes |
| Geometry.AnchorsDetermineBox | src/main/java/classDiagram/CDClass.java:170-191 | the anchors determine position, width and height exactly (inverse), wrap-around included |
| Geometry.NegativeWidthTruncates | src/main/java/classDiagram/CDClass.java:172 | a width of -3 at the origin puts UP at x=-1, not at the floored -2 |
| Geometry.MovedBoxAnchors | src/main/java/classDiagram/CDClass.java:155-191 | a box at (50,50), 40 by 20, has UP=(70,50), RIGHT=(90,60), DOWN=(70,70), LEFT=(50,60) |
| Members.OverriddenMembers | src/main/java/classDiagram/CDClass.java:228-233 | a method is in the override result if and only if the subclass declares it, the parent declares an equal method, and it is not private |
| Members.OverriddenMultiplicity | src/main/java/classDiagram/CDClass.java:228-233 | each overriding method occurs as many times as the subclass lists it; every other method occurs zero times |
| Members.OverriddenIsSubsequence | src/main/java/classDiagram/CDClass.java:228-233 | the result is a subsequence of the subclass's methods, in the subclass's order |
| Members.OverriddenConcat | src/main/java/classDiagram/CDClass.java:228-233 | resolving a concatenation resolves each part separately and concatenates the results: each method is decided on its own, in place |
| Members.PrivateMethodNotOverridden | src/main/java/classDiagram/CDClass.java:229-230 | parent {a, b private} and subclass {a, b private, c}: only a; b is left out because it is private (`Overrides` tests the subclass method's visibility) |
| Members.DogOverridesSpeak | src/main/java/classDiagram/CDClass.java:224-237 | Animal {speak} and Dog {bark, speak}: exactly [speak] |
| Lookup.IndexOf | src/main/java/classDiagram/CDNode.java:105-112 | the result is in [-1, length); it is -1 exactly when the element is absent; otherwise the element is at that position and at no earlier one |
| Diagrams.SDMessage.SetMarkedInconsistent | src/main/java/classDiagram/CDNode.java:61 | one consistency re-check of this message against the diagram, appended to the diagram's log |
| Diagrams.SweepLength | src/main/java/classDiagram/CDNode.java:59-63 | a sweep visits as many messages as all the sequence diagrams hold |
| Diagrams.SweepVisits | src/main/java/classDiagram/CDNode.java:59-63 | message j of diagram i is visited at position (messages of diagrams before i) + j: every message occurrence is visited once, diagram by diagram, in order |
| Diagrams.CDClass.constructor | src/main/java/classDiagram/CDClass.java:29-40 | name "defaultName", parent -1, no fields or methods, not an interface, at (0,0), 10 by 10, anchors UP=(5,0), RIGHT=(10,5), DOWN=(5,10), LEFT=(0,5) |
| Diagrams.CDClass.Filled | src/main/java/classDiagram/CDClass.java:54-67 | every argument is stored as given, and the anchors match the box |
| Diagrams.CDClass.SetName | src/main/java/classDiagram/CDClass.java:73-75 | sets the name and only the name |
| Diagrams.CDClass.SetParentIndex | src/main/java/classDiagram/CDClass.java:81-83 | sets the parent index unchecked, and changes nothing else |
| Diagrams.CDClass.SetParent | src/main/java/classDiagram/CDClass.java:90-99 | parent becomes the first position of the given class in the diagram by identity, or -1 when it is absent (never fails); ParentAsCDClass then returns that class, or null |
| Diagrams.CDClass.RemoveParent | src/main/java/classDiagram/CDClass.java:104-106 | parent becomes -1; geometry, anchors, name and member lists are untouched |
| Diagrams.CDClass.SetFields | src/main/java/classDiagram/CDClass.java:112-114 | replaces the field list wholesale, and changes nothing else |
| Diagrams.CDClass.SetMethods | src/main/java/classDiagram/CDClass.java:120-122 | replaces the method list wholesale, and changes nothing else |
| Diagrams.CDClass.AddField | src/main/java/classDiagram/CDClass.java:129-131 | appends exactly the given field at the end and returns true; methods and geometry are unchanged |
| Diagrams.CDClass.AddMethod | src/main/java/classDiagram/CDClass.java:138-140 | appends exactly the given method at the end and returns true; fields and geometry are unchanged |
| Diagrams.CDClass.SetInterface | src/main/java/classDiagram/CDClass.java:146-148 | sets the interface flag only |
| Diagrams.CDClass.SetPosition | src/main/java/classDiagram/CDClass.java:155-158 | moves the box, leaves its size, and the anchors match the new box |
| Diagrams.CDClass.SetWidth | src/main/java/classDiagram/CDClass.java:160-163 | sets the width and the anchors match the new box |
| Diagrams.CDClass.SetHeight | src/main/java/classDiagram/CDClass.java:165-168 | sets the height and the anchors match the new box |
| Diagrams.CDClass.SetAnchors | src/main/java/classDiagram/CDClass.java:170-191 | after the four in-place puts the anchor map is exactly AnchorsOf(position, width, height), whatever it held before |
| Diagrams.CDClass.ParentAsCDClass | src/main/java/classDiagram/CDClass.java:214-219 | null exactly when the parent index is -1, otherwise the diagram's class at the parent index |
| Diagrams.CDClass.GetOverriddenMethods | src/main/java/classDiagram/CDClass.java:224-237 | None (null) exactly when there is no parent; otherwise the subclass's methods that override the parent's, in the subclass's order |
| Diagrams.CDClass.GetAnchorByKey | src/main/java/classDiagram/CDClass.java:291-293 | the anchor read is the anchor's place on the current box, as long as the box changes only through the class's own setters |
| Diagrams.CDNode.constructor | src/main/java/classDiagram/CDNode.java:34-43 | stores both ends, both anchors, both cardinalities and the kind unchanged |
| Diagrams.CDNode.SetFAnchor | src/main/java/classDiagram/CDNode.java:45-47 | sets the originating anchor only, without notification |
| Diagrams.CDNode.SetTAnchor | src/main/java/classDiagram/CDNode.java:49-51 | sets the terminating anchor only, without notification |
| Diagrams.CDNode.SetFCard | src/main/java/classDiagram/CDNode.java:53-55 | sets the originating cardinality only, without notification |
| Diagrams.CDNode.SetTCard | src/main/java/classDiagram/CDNode.java:66-68 | sets the terminating cardinality only, without notification |
| Diagrams.CDNode.SetType | src/main/java/classDiagram/CDNode.java:79-81 | sets the kind only, without notification |
| Diagrams.CDNode.SetFrom | src/main/java/classDiagram/CDNode.java:57-64 | the originating class becomes the given one, and every message of every sequence diagram is re-checked once per occurrence, even when the end did not change |
| Diagrams.CDNode.SetTo | src/main/java/classDiagram/CDNode.java:70-77 | the terminating class becomes the given one, with the same full, unconditional sweep |
| Diagrams.CDNode.MarkAllInconsistent | src/main/java/classDiagram/CDNode.java:59-63 | the nested loop appends exactly the sweep of all sequence diagrams' messages to the log |
| Diagrams.CDNode.GetFromAsInt | src/main/java/classDiagram/CDNode.java:105-112 | the first position of the originating class by identity, or -1 |
| Diagrams.CDNode.GetToAsInt | src/main/java/classDiagram/CDNode.java:120-127 | the first position of the terminating class by identity, or -1 |
| Diagrams.FirstIndex | src/main/java/classDiagram/CDNode.java:106-111 | the scan with early return finds what IndexOf specifies |
| Scenarios.AnimalDog | src/main/java/classDiagram/CDClass.java:224-237 | Dog (parent Animal, methods bark and speak) overrides exactly [speak]; moved to (50,50) at 40 by 20 its anchors are (70,50), (90,60), (70,70), (50,60) |
| Scenarios.NoParentVersusNoOverride | src/main/java/classDiagram/CDClass.java:224-237 | with no parent the result is None; with a parent that declares nothing it is the empty list |
| Scenarios.RebindToSameEndpoint | src/main/java/classDiagram/CDNode.java:57-64 | rebinding to the current end re-checks m1, m2, m1 for diagrams [m1, m2] and [m1]; the end is then found at position 0 |
| Scenarios.RebindToStrayClass | src/main/java/classDiagram/CDNode.java:120-127 | an end bound to a class outside the diagram is reported at -1 |

## Left out

- `SDMessage.setMarkedInconsistent`: only the call is recorded. What the message decides and stores is not part of this model.
- `ClassDiagram` is not part of this model beyond an ordered list of classes and a list of sequence diagrams. The model holds the sequence diagrams as a list and sweeps them in that order; the order in which Java iterates `getSequenceDiagrams()` is not part of this model.
- `CDField` and its `equals` are not part of this model. A member is a value of name, type and visibility, and two members are equal when all three are. The override check therefore finds a parent method of the same visibility.
- `NodeType` and `getNumVal` are not part of this model. A kind is represented by its numeric code.
- `Diagrams.CDClass.SetParent` requires the diagram to hold at most 2^31 - 1 classes, the most a Java list can hold, so that every index fits the `int` parent field.
- `java.awt.Point` and the anchor `HashMap`: a point is a pair of Java `int`s and the anchor table is a map over the four anchor types.
- Parent indices that do not resolve: `getParentAsCDClass` and `getOverridenMethods` throw in Java for these. The model requires the index to be -1 or a valid position.
- Aliasing: the Java constructor keeps the caller's lists, and the getters hand out live objects. These are the member lists, the position `Point` (`getPosition`), the anchor `HashMap` (`getAnchors`) and the anchor `Point`s (`getAnchorByKey`). Writing through them (`getPosition().x = 7`, `getAnchors().put(...)`) can leave the Java anchors stale. The model keeps lists, points and the anchor map as values. So the anchor invariant `CDClass.Valid()` is proved only for changes made through the class's own setters.
- Getters that only return a field (`getName`, `getParent`, `getFields`, `getMethods`, `getPosition`, `getXposition`, `getYposition`, `getWidth`, `getHeight`, `getInterface`, `getAnchors`, `getFrom`, `getTo`, `getfCard`, `gettCard`, `getfAnchor`, `gettAnchor`) are read directly as fields. So is `getType`: `getNumVal` is not part of this model and the kind is stored as its code, so nothing independent can be said about it.
- Java `null` for a class list entry: the diagram's classes are non-null. A null parent argument or edge end is allowed and is never found.
- Rendering, serialization, undo and user interface are outside these classes.
