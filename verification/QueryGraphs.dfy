/** The query graph: resolved names, degrees, and which vertices are optional. */
module QueryGraphs {
  import opened Machine
  import opened Sequences

  datatype EdgeKind = REGULAR | OPTIONAL | NEGATIVE
  datatype Direction = DIRECTED | UNDIRECTED
  datatype Option<T> = None | Some(value: T)

  datatype ParsedVertex = ParsedVertex(labelName: string, name: string)
  datatype ParsedEdge = ParsedEdge(labelName: string, v1: string, v2: string, kind: EdgeKind, dir: Direction)
  datatype ParsedConstraint = ParsedConstraint(v1: string, v2: string, notEqual: bool)

  datatype QVertex = QVertex(labelId: nat, degree: nat, isOptional: bool)
  datatype QEdge = QEdge(labelId: nat, v1: nat, v2: nat, kind: EdgeKind, dir: Direction) {
    predicate Touches(v: nat) {
      v1 == v || v2 == v
    }

    function Other(v: nat): nat {
      if v1 == v then v2 else v1
    }
  }
  datatype QConstraint = QConstraint(v1: nat, v2: nat, notEqual: bool)

  datatype QueryGraph = QueryGraph(vertices: seq<QVertex>, edges: seq<QEdge>, constraints: seq<QConstraint>) {

    ghost predicate Valid() {
      && |edges| > 0
      && (forall e {:trigger edges[e]} :: 0 <= e < |edges| ==>
            edges[e].v1 < |vertices| && edges[e].v2 < |vertices| && edges[e].v1 != edges[e].v2)
      && (forall v {:trigger vertices[v]} :: 0 <= v < |vertices| ==>
            && vertices[v].degree == Degree(edges, v)
            && 1 <= vertices[v].degree <= MAX_QUERY_DEGREES
            && (vertices[v].isOptional <==> Unanchored(edges, v)))
      && (forall c {:trigger constraints[c]} :: 0 <= c < |constraints| ==>
            constraints[c].v1 < |vertices| && constraints[c].v2 < |vertices|)
    }

    /** An optional edge with exactly one optional endpoint hangs off the regular part of the query. */
    predicate OptionalWithRegular(e: nat)
      requires e < |edges| && edges[e].v1 < |vertices| && edges[e].v2 < |vertices|
    {
      edges[e].kind.OPTIONAL? && vertices[edges[e].v1].isOptional != vertices[edges[e].v2].isOptional
    }

    /** Only optional edges reach optional vertices. */
    lemma {:induction false} AnchoredEnds(e: nat)
      requires Valid() && e < |edges| && !edges[e].kind.OPTIONAL?
      ensures !vertices[edges[e].v1].isOptional && !vertices[edges[e].v2].isOptional
    {
      NotUnanchored(edges, e, edges[e].v1);
      NotUnanchored(edges, e, edges[e].v2);
      var v, w := vertices[edges[e].v1], vertices[edges[e].v2];
    }
  }

  // ----- incidence -----

  ghost function Incident(edges: seq<QEdge>, v: nat): iset<nat> {
    iset e: nat | e < |edges| && edges[e].Touches(v)
  }

  ghost function Degree(edges: seq<QEdge>, v: nat): nat {
    |FilterIn(Incident(edges, v), Iota(|edges|))|
  }

  /** v has a regular or negative edge. */
  ghost predicate Anchored(edges: seq<QEdge>, v: nat) {
    exists e: nat {:trigger edges[e]} :: e < |edges| && !edges[e].kind.OPTIONAL? && edges[e].Touches(v)
  }

  /**
   * Vertex v becomes optional: the first endpoint of an optional edge that has no other kind of edge, else its second.
   */
  ghost predicate Unanchored(edges: seq<QEdge>, v: nat) {
    && !Anchored(edges, v)
    && exists e: nat {:trigger edges[e]} :: e < |edges| && MadeOptional(edges, edges[e], v)
  }

  ghost predicate MadeOptional(edges: seq<QEdge>, e: QEdge, v: nat) {
    e.kind.OPTIONAL? && (e.v1 == v || (e.v2 == v && Anchored(edges, e.v1)))
  }

  lemma {:induction false} NotUnanchored(edges: seq<QEdge>, e: nat, v: nat)
    requires e < |edges| && !edges[e].kind.OPTIONAL? && edges[e].Touches(v)
    ensures Anchored(edges, v) && !Unanchored(edges, v)
  {
  }

  // ----- degrees -----

  lemma {:induction false} FilterSame2(good: iset<nat>, good': iset<nat>, vs: seq<nat>)
    requires forall i :: 0 <= i < |vs| ==> (vs[i] in good <==> vs[i] in good')
    ensures FilterIn(good, vs) == FilterIn(good', vs)
    decreases |vs|
  {
    if vs != [] {
      FilterSame2(good, good', vs[1..]);
    }
  }

  /** One more edge adds one to the degrees of its endpoints. */
  lemma {:induction false} DegreeSnoc(edges: seq<QEdge>, e: QEdge, v: nat)
    ensures Degree(edges + [e], v) == Degree(edges, v) + if e.Touches(v) then 1 else 0
  {
    var n := |edges|;
    var all := Incident(edges + [e], v);
    assert Iota(n + 1)[..n] == Iota(n) && Iota(n + 1)[..n + 1] == Iota(n + 1);
    FilterSnoc(all, Iota(n + 1), n);
    FilterSame2(all, Incident(edges, v), Iota(n));
  }

  // ----- resolving the parsed query -----

  /** What the assertions on vertices demand. */
  ghost predicate VerticesAccepted(labels: map<string, nat>, parsed: seq<ParsedVertex>) {
    && (forall i {:trigger parsed[i]} :: 0 <= i < |parsed| ==> parsed[i].labelName in labels)
    && (forall i, j :: 0 <= i < j < |parsed| ==> parsed[i].name != parsed[j].name)
  }

  /** names maps exactly the names of parsed to their positions. */
  ghost predicate Names(names: map<string, nat>, parsed: seq<ParsedVertex>) {
    && (forall i {:trigger parsed[i]} :: 0 <= i < |parsed| ==> parsed[i].name in names && names[parsed[i].name] == i)
    && (forall s {:trigger s in names} :: s in names ==> names[s] < |parsed| && parsed[names[s]].name == s)
  }

  method ResolveVertices(labels: map<string, nat>, parsed: seq<ParsedVertex>)
    returns (r: Option<seq<nat>>, names: map<string, nat>)
    ensures r.Some? <==> VerticesAccepted(labels, parsed)
    ensures r.Some? ==>
              && Names(names, parsed) && |r.value| == |parsed|
              && forall i :: 0 <= i < |parsed| ==> r.value[i] == labels[parsed[i].labelName]
  {
    var ids: seq<nat> := [];
    names := map[];
    var i := 0;
    while i < |parsed|
      invariant 0 <= i <= |parsed| && |ids| == i
      invariant VerticesAccepted(labels, parsed[..i]) && Names(names, parsed[..i])
      invariant forall j :: 0 <= j < i ==> ids[j] == labels[parsed[j].labelName]
    {
      if parsed[i].labelName !in labels || parsed[i].name in names {
        assert parsed[i].name in names ==> parsed[names[parsed[i].name]].name == parsed[i].name;
        return None, names;
      }
      assert parsed[..i + 1] == parsed[..i] + [parsed[i]];
      ids := ids + [labels[parsed[i].labelName]];
      names := names[parsed[i].name := i];
      i := i + 1;
    }
    assert parsed[..i] == parsed;
    r := Some(ids);
  }

  ghost predicate EdgeAccepted(labels: map<string, nat>, names: map<string, nat>, p: ParsedEdge) {
    p.labelName in labels && p.v1 in names && p.v2 in names && names[p.v1] != names[p.v2]
  }

  function EdgeOf(labels: map<string, nat>, names: map<string, nat>, p: ParsedEdge): QEdge
    requires p.labelName in labels && p.v1 in names && p.v2 in names
  {
    QEdge(labels[p.labelName], names[p.v1], names[p.v2], p.kind, p.dir)
  }

  /** What the assertions on edges demand. */
  ghost predicate EdgesAccepted(labels: map<string, nat>, names: map<string, nat>, parsed: seq<ParsedEdge>,
                                numVertices: nat) {
    && AllAccepted(labels, names, parsed)
    && forall v {:trigger Degree(EdgesOf(labels, names, parsed), v)} :: 0 <= v < numVertices ==>
         Degree(EdgesOf(labels, names, parsed), v) <= MAX_QUERY_DEGREES
  }

  ghost predicate AllAccepted(labels: map<string, nat>, names: map<string, nat>, parsed: seq<ParsedEdge>) {
    forall i {:trigger parsed[i]} :: 0 <= i < |parsed| ==> EdgeAccepted(labels, names, parsed[i])
  }

  ghost function EdgesOf(labels: map<string, nat>, names: map<string, nat>,
                         parsed: seq<ParsedEdge>): (edges: seq<QEdge>)
    requires AllAccepted(labels, names, parsed)
    ensures |edges| == |parsed| && forall i :: 0 <= i < |parsed| ==> edges[i] == EdgeOf(labels, names, parsed[i])
  {
    seq(|parsed|, i requires 0 <= i < |parsed| => EdgeOf(labels, names, parsed[i]))
  }

  lemma {:induction false} DegreeMono(edges: seq<QEdge>, n: nat, v: nat)
    requires n <= |edges|
    ensures Degree(edges[..n], v) <= Degree(edges, v)
    decreases |edges|
  {
    if n == |edges| {
      assert edges[..n] == edges;
    } else {
      var last := |edges| - 1;
      DegreeMono(edges[..last], n, v);
      assert edges[..last][..n] == edges[..n];
      assert edges == edges[..last] + [edges[last]];
      DegreeSnoc(edges[..last], edges[last], v);
    }
  }

  ghost predicate DegreesAre(edges: seq<QEdge>, degrees: seq<nat>) {
    forall v {:trigger degrees[v]} :: 0 <= v < |degrees| ==> degrees[v] == Degree(edges, v)
  }

  method AddDegree(ghost edges: seq<QEdge>, e: QEdge, degrees: seq<nat>) returns (degrees': seq<nat>)
    requires DegreesAre(edges, degrees) && e.v1 < |degrees| && e.v2 < |degrees| && e.v1 != e.v2
    ensures |degrees'| == |degrees| && DegreesAre(edges + [e], degrees')
    ensures forall v {:trigger degrees'[v]} :: 0 <= v < |degrees| && !e.Touches(v) ==> degrees'[v] == degrees[v]
  {
    degrees' := degrees[e.v1 := degrees[e.v1] + 1];
    degrees' := degrees'[e.v2 := degrees'[e.v2] + 1];
    forall v | 0 <= v < |degrees|
      ensures degrees'[v] == Degree(edges + [e], v)
    {
      assert degrees[v] == Degree(edges, v);
      DegreeSnoc(edges, e, v);
    }
  }

  /** The edge table and the degrees it gives every vertex. */
  method ResolveEdges(labels: map<string, nat>, names: map<string, nat>, parsed: seq<ParsedEdge>, numVertices: nat)
    returns (r: Option<seq<QEdge>>, degrees: seq<nat>)
    requires forall s {:trigger s in names} :: s in names ==> names[s] < numVertices
    ensures r.Some? <==> EdgesAccepted(labels, names, parsed, numVertices)
    ensures r.Some? ==>
              r.value == EdgesOf(labels, names, parsed) && |degrees| == numVertices && DegreesAre(r.value, degrees)
  {
    var edges: seq<QEdge> := [];
    degrees := seq(numVertices, v => 0);
    var i := 0;
    while i < |parsed|
      invariant 0 <= i <= |parsed| && |degrees| == numVertices
      invariant AllAccepted(labels, names, parsed[..i]) && edges == EdgesOf(labels, names, parsed[..i])
      invariant DegreesAre(edges, degrees)
      invariant forall v {:trigger degrees[v]} :: 0 <= v < numVertices ==> degrees[v] <= MAX_QUERY_DEGREES
    {
      var p := parsed[i];
      if p.labelName !in labels || p.v1 !in names || p.v2 !in names || names[p.v1] == names[p.v2] {
        return None, degrees;
      }
      var e := EdgeOf(labels, names, p);
      degrees := AddDegree(edges, e, degrees);
      assert parsed[..i + 1] == parsed[..i] + [p];
      edges := edges + [e];
      if degrees[e.v1] > MAX_QUERY_DEGREES || degrees[e.v2] > MAX_QUERY_DEGREES {
        ghost var v := if degrees[e.v1] > MAX_QUERY_DEGREES then e.v1 else e.v2;
        assert degrees[v] == Degree(edges, v);
        if EdgesAccepted(labels, names, parsed, numVertices) {
          assert edges == EdgesOf(labels, names, parsed)[..i + 1];
          DegreeMono(EdgesOf(labels, names, parsed), i + 1, v);
          assert false;
        }
        return None, degrees;
      }
      i := i + 1;
    }
    assert parsed[..i] == parsed;
    forall v | 0 <= v < numVertices
      ensures Degree(edges, v) <= MAX_QUERY_DEGREES
    {
      assert degrees[v] == Degree(edges, v);
    }
    r := Some(edges);
  }

  // ----- optional vertices -----

  /** Optional edges are written after all others. */
  ghost predicate OptionalLast(edges: seq<QEdge>) {
    && |edges| > 0 && !edges[0].kind.OPTIONAL?
    && forall i {:trigger edges[i]} :: 1 <= i < |edges| && edges[i - 1].kind.OPTIONAL? ==> edges[i].kind.OPTIONAL?
  }

  /** Every optional edge adds a new vertex. */
  ghost predicate OptionalNew(edges: seq<QEdge>) {
    forall i {:trigger edges[i]} :: 0 <= i < |edges| && edges[i].kind.OPTIONAL? ==>
      !(Anchored(edges, edges[i].v1) && Anchored(edges, edges[i].v2))
  }

  method CheckOptionalLast(edges: seq<QEdge>) returns (ok: bool)
    requires |edges| > 0
    ensures ok <==> OptionalLast(edges)
  {
    if edges[0].kind.OPTIONAL? {
      return false;
    }
    var i := 1;
    while i < |edges|
      invariant 1 <= i <= |edges|
      invariant forall j {:trigger edges[j]} :: 1 <= j < i && edges[j - 1].kind.OPTIONAL? ==> edges[j].kind.OPTIONAL?
    {
      if !edges[i].kind.OPTIONAL? && edges[i - 1].kind.OPTIONAL? {
        return false;
      }
      i := i + 1;
    }
    return true;
  }

  lemma {:induction false} AllLaterOptional(edges: seq<QEdge>, i: nat, j: nat)
    requires OptionalLast(edges) && i <= j < |edges| && edges[i].kind.OPTIONAL?
    ensures edges[j].kind.OPTIONAL?
    decreases j - i
  {
    if i < j {
      AllLaterOptional(edges, i, j - 1);
    }
  }

  /** By the first optional edge every anchored vertex has been seen. */
  lemma {:induction false} AnchoredEarly(edges: seq<QEdge>, i: nat, v: nat)
    requires OptionalLast(edges) && i < |edges| && edges[i].kind.OPTIONAL?
    ensures Anchored(edges[..i], v) <==> Anchored(edges, v)
  {
    if Anchored(edges[..i], v) {
      var e: nat :| e < i && !edges[..i][e].kind.OPTIONAL? && edges[..i][e].Touches(v);
      assert edges[e].Touches(v);
    }
    if Anchored(edges, v) {
      var e: nat :| e < |edges| && !edges[e].kind.OPTIONAL? && edges[e].Touches(v);
      if e >= i {
        AllLaterOptional(edges, i, e);
      }
      assert edges[..i][e].Touches(v);
    }
  }

  lemma {:induction false} AnchoredSnoc(edges: seq<QEdge>, i: nat, v: nat)
    requires i < |edges|
    ensures Anchored(edges[..i + 1], v) <==>
              Anchored(edges[..i], v) || (!edges[i].kind.OPTIONAL? && edges[i].Touches(v))
  {
    var before, after := edges[..i], edges[..i + 1];
    if Anchored(after, v) {
      var e: nat :| e < i + 1 && !after[e].kind.OPTIONAL? && after[e].Touches(v);
      assert e < i ==> before[e] == after[e];
    }
    if Anchored(before, v) {
      var e: nat :| e < i && !before[e].kind.OPTIONAL? && before[e].Touches(v);
      assert after[e] == before[e];
    }
    assert after[i] == edges[i];
  }

  ghost predicate MadeBefore(edges: seq<QEdge>, i: nat, v: nat) {
    exists e: nat {:trigger edges[e]} :: e < |edges| && e < i && MadeOptional(edges, edges[e], v)
  }

  lemma {:induction false} MadeSnoc(edges: seq<QEdge>, i: nat, v: nat)
    requires i < |edges|
    ensures MadeBefore(edges, i + 1, v) <==> MadeBefore(edges, i, v) || MadeOptional(edges, edges[i], v)
  {
  }

  /** The marks of the vertices that a regular or negative one of the first i edges touches. */
  ghost predicate AnchorsSeen(edges: seq<QEdge>, i: nat, regular: seq<bool>)
    requires i <= |edges|
  {
    forall v {:trigger regular[v]} :: 0 <= v < |regular| ==> (regular[v] <==> Anchored(edges[..i], v))
  }

  /** The marks of the vertices that one of the first i edges makes optional. */
  ghost predicate OptionalsSeen(edges: seq<QEdge>, i: nat, optional: seq<bool>) {
    forall v {:trigger optional[v]} :: 0 <= v < |optional| ==>
      (optional[v] <==> !Anchored(edges, v) && MadeBefore(edges, i, v))
  }

  lemma {:induction false} AnchorsStep(edges: seq<QEdge>, i: nat, regular: seq<bool>, regular': seq<bool>)
    requires i < |edges| && edges[i].v1 < |regular| && edges[i].v2 < |regular| && AnchorsSeen(edges, i, regular)
    requires regular' == if edges[i].kind.OPTIONAL? then regular
                         else regular[edges[i].v1 := true][edges[i].v2 := true]
    ensures AnchorsSeen(edges, i + 1, regular')
  {
    forall v {:trigger regular'[v]} | 0 <= v < |regular'|
      ensures regular'[v] <==> Anchored(edges[..i + 1], v)
    {
      AnchoredSnoc(edges, i, v);
    }
  }

  /** An optional edge's ends are anchored exactly when they have been marked before it. */
  lemma {:induction false} EndsSeen(edges: seq<QEdge>, i: nat, regular: seq<bool>)
    requires OptionalLast(edges) && i < |edges| && edges[i].kind.OPTIONAL? && AnchorsSeen(edges, i, regular)
    requires edges[i].v1 < |regular| && edges[i].v2 < |regular|
    ensures regular[edges[i].v1] <==> Anchored(edges, edges[i].v1)
    ensures regular[edges[i].v2] <==> Anchored(edges, edges[i].v2)
  {
    AnchoredEarly(edges, i, edges[i].v1);
    AnchoredEarly(edges, i, edges[i].v2);
  }

  lemma {:induction false} OptionalsStep(edges: seq<QEdge>, i: nat, optional: seq<bool>, optional': seq<bool>)
    requires i < |edges| && edges[i].v1 < |optional| && edges[i].v2 < |optional| && OptionalsSeen(edges, i, optional)
    requires edges[i].kind.OPTIONAL? ==> !(Anchored(edges, edges[i].v1) && Anchored(edges, edges[i].v2))
    requires optional' == if !edges[i].kind.OPTIONAL? then optional
                          else if !Anchored(edges, edges[i].v1) then optional[edges[i].v1 := true]
                          else optional[edges[i].v2 := true]
    ensures OptionalsSeen(edges, i + 1, optional')
  {
    forall v {:trigger optional'[v]} | 0 <= v < |optional'|
      ensures optional'[v] <==> !Anchored(edges, v) && MadeBefore(edges, i + 1, v)
    {
      MadeSnoc(edges, i, v);
    }
  }

  /** Which vertices are optional. */
  method MarkOptional(edges: seq<QEdge>, numVertices: nat) returns (r: Option<seq<bool>>)
    requires OptionalLast(edges)
    requires forall e {:trigger edges[e]} :: 0 <= e < |edges| ==> edges[e].v1 < numVertices && edges[e].v2 < numVertices
    ensures r.Some? <==> OptionalNew(edges)
    ensures r.Some? ==> |r.value| == numVertices && forall v :: 0 <= v < numVertices ==>
              (r.value[v] <==> Unanchored(edges, v))
  {
    var regular, optional := seq(numVertices, v => false), seq(numVertices, v => false);
    var i := 0;
    while i < |edges|
      invariant 0 <= i <= |edges| && |regular| == |optional| == numVertices
      invariant AnchorsSeen(edges, i, regular) && OptionalsSeen(edges, i, optional)
      invariant forall e {:trigger edges[e]} :: 0 <= e < i && edges[e].kind.OPTIONAL? ==>
                  !(Anchored(edges, edges[e].v1) && Anchored(edges, edges[e].v2))
    {
      var e := edges[i];
      ghost var regular0, optional0 := regular, optional;
      if e.kind.OPTIONAL? {
        EndsSeen(edges, i, regular);
        if regular[e.v1] && regular[e.v2] {
          return None;
        }
        if !regular[e.v1] {
          optional := optional[e.v1 := true];
        } else if !regular[e.v2] {
          optional := optional[e.v2 := true];
        }
      } else {
        regular := regular[e.v1 := true];
        regular := regular[e.v2 := true];
      }
      AnchorsStep(edges, i, regular0, regular);
      OptionalsStep(edges, i, optional0, optional);
      i := i + 1;
    }
    r := Some(optional);
  }

  // ----- constraints and the whole graph -----

  ghost predicate ConstraintAccepted(names: map<string, nat>, labelIds: seq<nat>, p: ParsedConstraint) {
    && p.v1 in names && p.v2 in names && names[p.v1] < |labelIds| && names[p.v2] < |labelIds|
    && labelIds[names[p.v1]] == labelIds[names[p.v2]]
  }

  /** The parsed constraints with names resolved. */
  ghost predicate ConstraintsAre(names: map<string, nat>, parsed: seq<ParsedConstraint>,
                                 constraints: seq<QConstraint>) {
    && |constraints| == |parsed|
    && forall i {:trigger constraints[i]} :: 0 <= i < |parsed| ==>
         && parsed[i].v1 in names && parsed[i].v2 in names
         && constraints[i] == QConstraint(names[parsed[i].v1], names[parsed[i].v2], parsed[i].notEqual)
  }

  method ResolveConstraints(names: map<string, nat>, labelIds: seq<nat>, parsed: seq<ParsedConstraint>)
    returns (r: Option<seq<QConstraint>>)
    requires forall s {:trigger s in names} :: s in names ==> names[s] < |labelIds|
    ensures r.Some? <==> forall i {:trigger parsed[i]} :: 0 <= i < |parsed| ==>
              ConstraintAccepted(names, labelIds, parsed[i])
    ensures r.Some? ==> ConstraintsAre(names, parsed, r.value)
  {
    var constraints: seq<QConstraint> := [];
    var i := 0;
    while i < |parsed|
      invariant 0 <= i <= |parsed| && |constraints| == i
      invariant forall j {:trigger parsed[j]} :: 0 <= j < i ==> ConstraintAccepted(names, labelIds, parsed[j])
      invariant forall j {:trigger constraints[j]} :: 0 <= j < i ==>
                  constraints[j] == QConstraint(names[parsed[j].v1], names[parsed[j].v2], parsed[j].notEqual)
    {
      var p := parsed[i];
      if p.v1 !in names || p.v2 !in names || labelIds[names[p.v1]] != labelIds[names[p.v2]] {
        return None;
      }
      constraints := constraints + [QConstraint(names[p.v1], names[p.v2], p.notEqual)];
      i := i + 1;
    }
    r := Some(constraints);
  }

  /** The endpoints of a negative edge have another edge. */
  ghost predicate NegativesAttached(edges: seq<QEdge>) {
    forall e {:trigger edges[e]} :: 0 <= e < |edges| && edges[e].kind.NEGATIVE? ==>
      Degree(edges, edges[e].v1) > 1 && Degree(edges, edges[e].v2) > 1
  }

  method CheckNegatives(edges: seq<QEdge>, degrees: seq<nat>) returns (ok: bool)
    requires DegreesAre(edges, degrees)
    requires forall e {:trigger edges[e]} :: 0 <= e < |edges| ==> edges[e].v1 < |degrees| && edges[e].v2 < |degrees|
    ensures ok <==> NegativesAttached(edges)
  {
    var i := 0;
    while i < |edges|
      invariant 0 <= i <= |edges|
      invariant forall e {:trigger edges[e]} :: 0 <= e < i && edges[e].kind.NEGATIVE? ==>
                  Degree(edges, edges[e].v1) > 1 && Degree(edges, edges[e].v2) > 1
    {
      var e := edges[i];
      assert degrees[e.v1] == Degree(edges, e.v1) && degrees[e.v2] == Degree(edges, e.v2);
      if e.kind.NEGATIVE? && !(degrees[e.v1] > 1 && degrees[e.v2] > 1) {
        return false;
      }
      i := i + 1;
    }
    return true;
  }

  ghost predicate NoneIsolated(edges: seq<QEdge>, numVertices: nat) {
    forall v {:trigger Degree(edges, v)} :: 0 <= v < numVertices ==> Degree(edges, v) != 0
  }

  method CheckDegrees(ghost edges: seq<QEdge>, degrees: seq<nat>) returns (ok: bool)
    requires DegreesAre(edges, degrees)
    ensures ok <==> NoneIsolated(edges, |degrees|)
  {
    var v := 0;
    while v < |degrees|
      invariant 0 <= v <= |degrees|
      invariant NoneIsolated(edges, v)
    {
      assert degrees[v] == Degree(edges, v);
      if degrees[v] == 0 {
        return false;
      }
      v := v + 1;
    }
    return true;
  }

  /** What the assertions on edge kinds demand of the resolved edges. */
  ghost predicate ShapeAccepted(edges: seq<QEdge>, numVertices: nat) {
    OptionalLast(edges) && NoneIsolated(edges, numVertices) && OptionalNew(edges) && NegativesAttached(edges)
  }

  ghost predicate ConstraintsAccepted(labels: map<string, nat>, names: map<string, nat>, vertices: seq<ParsedVertex>,
                                      parsed: seq<ParsedConstraint>) {
    forall i {:trigger parsed[i]} :: 0 <= i < |parsed| ==>
      && parsed[i].v1 in names && parsed[i].v2 in names
      && names[parsed[i].v1] < |vertices| && names[parsed[i].v2] < |vertices|
      && vertices[names[parsed[i].v1]].labelName in labels && vertices[names[parsed[i].v2]].labelName in labels
      && labels[vertices[names[parsed[i].v1]].labelName] == labels[vertices[names[parsed[i].v2]].labelName]
  }

  /** The parsed query passes every assertion of the construction, under the given numbering of its vertex names. */
  ghost predicate AcceptedAs(vertexLabels: map<string, nat>, edgeLabels: map<string, nat>, names: map<string, nat>,
                             parsedVertices: seq<ParsedVertex>, parsedEdges: seq<ParsedEdge>,
                             parsedConstraints: seq<ParsedConstraint>) {
    && parsedVertices != [] && parsedEdges != []
    && VerticesAccepted(vertexLabels, parsedVertices) && Names(names, parsedVertices)
    && EdgesAccepted(edgeLabels, names, parsedEdges, |parsedVertices|)
    && ShapeAccepted(EdgesOf(edgeLabels, names, parsedEdges), |parsedVertices|)
    && ConstraintsAccepted(vertexLabels, names, parsedVertices, parsedConstraints)
  }

  lemma {:induction false} NamesUnique(names: map<string, nat>, names': map<string, nat>, parsed: seq<ParsedVertex>)
    requires Names(names, parsed) && Names(names', parsed)
    ensures names == names'
  {
    forall s
      ensures s in names <==> s in names'
      ensures s in names ==> s in names' && names[s] == names'[s]
    {
      if s in names {
        assert parsed[names[s]].name == s;
      }
      if s in names' {
        assert parsed[names'[s]].name == s;
      }
    }
  }

  /** Every vertex has the id of the label it was parsed with, at its own place. */
  ghost predicate VerticesLabelled(labels: map<string, nat>, parsed: seq<ParsedVertex>, vertices: seq<QVertex>) {
    && |vertices| == |parsed|
    && forall v {:trigger vertices[v]} :: 0 <= v < |vertices| ==>
         parsed[v].labelName in labels && vertices[v].labelId == labels[parsed[v].labelName]
  }

  /** Every edge has the id of its own label, the numbers of its own ends in their order, its kind and its direction. */
  ghost predicate EdgesResolved(labels: map<string, nat>, names: map<string, nat>, parsed: seq<ParsedEdge>,
                                edges: seq<QEdge>) {
    && |edges| == |parsed|
    && forall e {:trigger edges[e]} :: 0 <= e < |edges| ==>
         && parsed[e].labelName in labels && edges[e].labelId == labels[parsed[e].labelName]
         && parsed[e].v1 in names && edges[e].v1 == names[parsed[e].v1]
         && parsed[e].v2 in names && edges[e].v2 == names[parsed[e].v2]
         && edges[e].kind == parsed[e].kind && edges[e].dir == parsed[e].dir
  }

  lemma {:induction false} EdgesOfResolved(labels: map<string, nat>, names: map<string, nat>, parsed: seq<ParsedEdge>)
    requires AllAccepted(labels, names, parsed)
    ensures EdgesResolved(labels, names, parsed, EdgesOf(labels, names, parsed))
  {
    forall e {:trigger EdgesOf(labels, names, parsed)[e]} | 0 <= e < |parsed|
      ensures EdgeAccepted(labels, names, parsed[e])
    {
    }
  }

  /**
   * Builds the query graph, or None exactly where one of the construction's assertions fires. The graph's vertices have
   * the labels, its edges the labels, ends, kinds and directions of the parsed ones; its degrees and optional flags are
   * what the edge table says.
   */
  method MakeQueryGraph(vertexLabels: map<string, nat>, edgeLabels: map<string, nat>, parsedVertices: seq<ParsedVertex>,
                        parsedEdges: seq<ParsedEdge>, parsedConstraints: seq<ParsedConstraint>)
    returns (r: Option<QueryGraph>, ghost names: map<string, nat>)
    ensures r.Some? ==>
              && AcceptedAs(vertexLabels, edgeLabels, names, parsedVertices, parsedEdges, parsedConstraints)
              && r.value.Valid()
              && |r.value.vertices| == |parsedVertices| && r.value.edges == EdgesOf(edgeLabels, names, parsedEdges)
              && ConstraintsAre(names, parsedConstraints, r.value.constraints)
              && VerticesLabelled(vertexLabels, parsedVertices, r.value.vertices)
              && EdgesResolved(edgeLabels, names, parsedEdges, r.value.edges)
    ensures r.None? ==>
              forall names' :: !AcceptedAs(vertexLabels, edgeLabels, names', parsedVertices, parsedEdges,
                    parsedConstraints)
  {
    names := map[];
    if parsedVertices == [] || parsedEdges == [] {
      return None, names;
    }
    var labelIds, numbers := ResolveVertices(vertexLabels, parsedVertices);
    names := numbers;
    if labelIds.None? {
      return None, names;
    }
    forall names' | Names(names', parsedVertices)
      ensures names' == names
    {
      NamesUnique(names', names, parsedVertices);
    }
    var edges, degrees := ResolveEdges(edgeLabels, numbers, parsedEdges, |parsedVertices|);
    if edges.None? {
      return None, names;
    }
    var last := CheckOptionalLast(edges.value);
    var attached := CheckDegrees(edges.value, degrees);
    if !last || !attached {
      return None, names;
    }
    var optional := MarkOptional(edges.value, |parsedVertices|);
    var negatives := CheckNegatives(edges.value, degrees);
    if optional.None? || !negatives {
      return None, names;
    }
    var constraints := ResolveConstraints(numbers, labelIds.value, parsedConstraints);
    if constraints.None? {
      return None, names;
    }
    var ids, flags := labelIds.value, optional.value;
    var vertices := seq(|parsedVertices|,
          v requires 0 <= v < |parsedVertices| => QVertex(ids[v], degrees[v], flags[v]));
    var q := QueryGraph(vertices, edges.value, constraints.value);
    forall v {:trigger q.vertices[v]} | 0 <= v < |q.vertices|
      ensures q.vertices[v].degree == Degree(q.edges, v) && 1 <= q.vertices[v].degree <= MAX_QUERY_DEGREES
      ensures q.vertices[v].isOptional <==> Unanchored(q.edges, v)
    {
      assert degrees[v] == Degree(q.edges, v);
    }
    EdgesOfResolved(edgeLabels, names, parsedEdges);
    r := Some(q);
  }
}
