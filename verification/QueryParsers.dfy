/** The textual form of query edges and constraints. */
module QueryParsers {
  import opened QueryGraphs
  import opened SlotTables

  const NAME_SIZE_LIMIT: nat := 32
  const LABEL_SIZE_LIMIT: nat := 32

  /** Rejected: the parser reports an error; AssertionFails: an assertion on brackets, sizes or names fires. */
  datatype Outcome<T> = Accepted(value: T) | Rejected | AssertionFails

  // ----- tokens -----

  /** The pieces of s between separator characters, empty pieces included. */
  function Split(s: string, seps: string): (tokens: seq<string>)
    ensures |tokens| >= 1
  {
    if s == "" then [""]
    else
      var rest := Split(s[1..], seps);
      if s[0] in seps then [""] + rest else [[s[0]] + rest[0]] + rest[1..]
  }

  predicate Free(s: string, seps: string) {
    forall i :: 0 <= i < |s| ==> s[i] !in seps
  }

  lemma {:induction false} SplitPlain(a: string, seps: string)
    requires Free(a, seps)
    ensures Split(a, seps) == [a]
    decreases |a|
  {
    if a != "" {
      SplitPlain(a[1..], seps);
      assert [a[0]] + a[1..] == a;
    }
  }

  lemma {:induction false} SplitAt(a: string, c: char, b: string, seps: string)
    requires Free(a, seps) && c in seps
    ensures Split(a + [c] + b, seps) == [a] + Split(b, seps)
    decreases |a|
  {
    var all := a + [c] + b;
    if a == "" {
      assert all[1..] == b;
    } else {
      SplitAt(a[1..], c, b, seps);
      assert all[1..] == a[1..] + [c] + b;
      assert [a[0]] + a[1..] == a;
    }
  }

  lemma {:induction false} TokensFree(s: string, seps: string)
    ensures forall i {:trigger Split(s, seps)[i]} :: 0 <= i < |Split(s, seps)| ==> Free(Split(s, seps)[i], seps)
    decreases |s|
  {
    if s != "" {
      TokensFree(s[1..], seps);
      var rest := Split(s[1..], seps);
      assert Free(rest[0], seps);
    }
  }

  // ----- edges -----

  const EDGE_SEPARATORS: string := " <->"

  function Round(name: string): string {
    "(" + name + ")"
  }

  function Square(label_: string): string {
    "[" + label_ + "]"
  }

  function Word(kind: EdgeKind): string {
    match kind
    case OPTIONAL => "OPTIONAL"
    case NEGATIVE => "NOT"
    case REGULAR => ""
  }

  function Prefix(kind: EdgeKind): string {
    if kind.REGULAR? then "" else Word(kind) + " "
  }

  /** A directed edge as text, written from its first vertex. */
  function OutText(kind: EdgeKind, v: string, l: string, w: string): string {
    Prefix(kind) + (v + "-" + (l + "-" + ("" + ">" + w)))
  }

  /** A directed edge as text, written from its second vertex. */
  function InText(kind: EdgeKind, v: string, l: string, w: string): string {
    Prefix(kind) + (w + "<" + ("" + "-" + (l + "-" + v)))
  }

  function PlainText(v: string, l: string, w: string): string {
    v + "-" + (l + "-" + w)
  }

  function Outgoing(e: ParsedEdge): string {
    OutText(e.kind, Round(e.v1), Square(e.labelName), Round(e.v2))
  }

  function Ingoing(e: ParsedEdge): string {
    InText(e.kind, Round(e.v1), Square(e.labelName), Round(e.v2))
  }

  function Undirected(e: ParsedEdge): string {
    PlainText(Round(e.v1), Square(e.labelName), Round(e.v2))
  }

  /** Names and label contain no separator and fit their fields; only directed edges may be optional or negative. */
  predicate Printable(e: ParsedEdge) {
    && Free(e.v1, EDGE_SEPARATORS) && Free(e.v2, EDGE_SEPARATORS) && Free(e.labelName, EDGE_SEPARATORS)
    && |e.v1| < NAME_SIZE_LIMIT && |e.v2| < NAME_SIZE_LIMIT && |e.labelName| < LABEL_SIZE_LIMIT
    && (e.dir.UNDIRECTED? ==> e.kind.REGULAR?)
  }

  /** s is a way to write e. */
  predicate IsText(s: string, e: ParsedEdge) {
    && Printable(e)
    && if e.dir.DIRECTED? then s == Outgoing(e) || s == Ingoing(e) else s == Undirected(e)
  }

  /** The raw pieces of an edge, brackets included. */
  datatype Pieces = Pieces(v1: string, labelName: string, v2: string, kind: EdgeKind, dir: Direction)

  ghost predicate PiecesFree(p: Pieces) {
    && Free(p.v1, EDGE_SEPARATORS) && Free(p.v2, EDGE_SEPARATORS) && Free(p.labelName, EDGE_SEPARATORS)
    && (p.dir.UNDIRECTED? ==> p.kind.REGULAR?)
  }

  /**
   * s has the shape of an edge with these pieces, whatever their brackets and sizes. Written from its second vertex, an
   * edge needs a label that is not empty: with an empty one the tokens are taken for the other form.
   */
  ghost predicate MadeOf(s: string, p: Pieces) {
    && PiecesFree(p)
    && if p.dir.DIRECTED? then
         || s == OutText(p.kind, p.v1, p.labelName, p.v2)
         || (s == InText(p.kind, p.v1, p.labelName, p.v2) && p.labelName != "")
       else s == PlainText(p.v1, p.labelName, p.v2)
  }

  /** The tokens of an edge without its prefix word. */
  predicate BodyOf(body: seq<string>, p: Pieces) {
    if p.dir.DIRECTED? then
      || body == [p.v1, p.labelName, "", p.v2]
      || (body == [p.v2, "", p.labelName, p.v1] && p.labelName != "")
    else body == [p.v1, p.labelName, p.v2]
  }

  function PiecesFor(e: ParsedEdge): Pieces {
    Pieces(Round(e.v1), Square(e.labelName), Round(e.v2), e.kind, e.dir)
  }

  /** The texts of an edge are made of its bracketed names. */
  lemma {:induction false} TextMadeOf(s: string, e: ParsedEdge)
    requires Printable(e)
    ensures MadeOf(s, PiecesFor(e)) <==> IsText(s, e)
  {
    BracketsFree(e);
  }

  lemma {:induction false} BracketsFree(e: ParsedEdge)
    requires Printable(e)
    ensures PiecesFree(PiecesFor(e)) && Square(e.labelName) != ""
  {
  }

  lemma {:induction false} SplitPrefix(kind: EdgeKind, rest: string)
    ensures Split(Prefix(kind) + rest, EDGE_SEPARATORS)
         == (if kind.REGULAR? then [] else [Word(kind)]) + Split(rest, EDGE_SEPARATORS)
  {
    if kind.REGULAR? {
      assert Prefix(kind) + rest == rest;
    } else {
      assert Prefix(kind) + rest == Word(kind) + [' '] + rest;
      SplitAt(Word(kind), ' ', rest, EDGE_SEPARATORS);
    }
  }

  lemma {:induction false} OutTokens(kind: EdgeKind, v: string, l: string, w: string)
    requires Free(v, EDGE_SEPARATORS) && Free(l, EDGE_SEPARATORS) && Free(w, EDGE_SEPARATORS)
    ensures Split(OutText(kind, v, l, w), EDGE_SEPARATORS)
         == (if kind.REGULAR? then [] else [Word(kind)]) + [v, l, "", w]
  {
    SplitPlain(w, EDGE_SEPARATORS);
    SplitAt("", '>', w, EDGE_SEPARATORS);
    SplitAt(l, '-', "" + ">" + w, EDGE_SEPARATORS);
    SplitAt(v, '-', l + "-" + ("" + ">" + w), EDGE_SEPARATORS);
    SplitPrefix(kind, v + "-" + (l + "-" + ("" + ">" + w)));
  }

  lemma {:induction false} InTokens(kind: EdgeKind, v: string, l: string, w: string)
    requires Free(v, EDGE_SEPARATORS) && Free(l, EDGE_SEPARATORS) && Free(w, EDGE_SEPARATORS)
    ensures Split(InText(kind, v, l, w), EDGE_SEPARATORS)
         == (if kind.REGULAR? then [] else [Word(kind)]) + [w, "", l, v]
  {
    SplitPlain(v, EDGE_SEPARATORS);
    SplitAt(l, '-', v, EDGE_SEPARATORS);
    SplitAt("", '-', l + "-" + v, EDGE_SEPARATORS);
    SplitAt(w, '<', "" + "-" + (l + "-" + v), EDGE_SEPARATORS);
    SplitPrefix(kind, w + "<" + ("" + "-" + (l + "-" + v)));
  }

  lemma {:induction false} PlainTokens(v: string, l: string, w: string)
    requires Free(v, EDGE_SEPARATORS) && Free(l, EDGE_SEPARATORS) && Free(w, EDGE_SEPARATORS)
    ensures Split(PlainText(v, l, w), EDGE_SEPARATORS) == [v, l, w]
  {
    SplitPlain(w, EDGE_SEPARATORS);
    SplitAt(l, '-', w, EDGE_SEPARATORS);
    SplitAt(v, '-', l + "-" + w, EDGE_SEPARATORS);
  }

  /** all are the tokens of an edge with these pieces. */
  ghost predicate TokensOf(all: seq<string>, p: Pieces) {
    if p.kind.REGULAR? then BodyOf(all, p)
    else |all| == 5 && all[0] == Word(p.kind) && p.dir.DIRECTED? && BodyOf(all[1..], p)
  }

  /** What the tokens of a written edge are. */
  lemma {:induction false} TextTokens(s: string, p: Pieces)
    requires MadeOf(s, p)
    ensures TokensOf(Split(s, EDGE_SEPARATORS), p)
  {
    if p.dir.UNDIRECTED? {
      PlainTokens(p.v1, p.labelName, p.v2);
    } else {
      OutTokens(p.kind, p.v1, p.labelName, p.v2);
      InTokens(p.kind, p.v1, p.labelName, p.v2);
    }
  }

  predicate Bracketed(s: string, open: char, close: char) {
    s != "" && s[0] == open && s[|s| - 1] == close
  }

  /** s without its brackets. */
  function Inner(s: string): (r: string)
    requires |s| >= 2
    ensures |r| == |s| - 2
  {
    s[1..|s| - 1]
  }

  lemma {:induction false} InnerOf(s: string, open: char, close: char, seps: string)
    requires Bracketed(s, open, close) && open != close && Free(s, seps)
    ensures |s| >= 2 && s == [open] + Inner(s) + [close] && Free(Inner(s), seps)
  {
  }

  lemma {:induction false} OuterOf(name: string, open: char, close: char)
    ensures
      var s := [open] + name + [close];
      Bracketed(s, open, close) && |s| >= 2 && Inner(s) == name
  {
  }

  /** The kind a prefix word stands for, by its place in the token list, and the text it starts the target with. */
  method PrefixKind(word: string) returns (kind: EdgeKind, target: string)
    ensures kind.REGULAR? ==> target == "" && word != Word(OPTIONAL) && word != Word(NEGATIVE)
    ensures !kind.REGULAR? ==> word == Word(kind) && target == Prefix(kind)
  {
    var tokens, kinds := ["OPTIONAL", "NOT"], [OPTIONAL, NEGATIVE];
    kind, target := REGULAR, "";
    var i := 0;
    while i < |tokens|
      invariant 0 <= i <= 2
      invariant kind.REGULAR? ==> target == "" && (i > 0 ==> word != "OPTIONAL") && (i > 1 ==> word != "NOT")
      invariant !kind.REGULAR? ==> word == Word(kind) && target == Prefix(kind)
    {
      if word == tokens[i] {
        kind, target := kinds[i], tokens[i] + " ";
      }
      i := i + 1;
    }
  }

  /** What the pieces are written as, given which of the two forms the tokens had. */
  function Written(p: Pieces, outgoing: bool): string {
    if p.dir.UNDIRECTED? then p.v1 + "-" + p.labelName + "-" + p.v2
    else if outgoing then Prefix(p.kind) + p.v1 + "-" + p.labelName + "->" + p.v2
    else Prefix(p.kind) + p.v2 + "<-" + p.labelName + "-" + p.v1
  }

  /** The tokens after the prefix word, if there is one. */
  function Body(all: seq<string>): seq<string> {
    if |all| == 5 then all[1..] else all
  }

  /** The tokens are those of a directed edge written from its first vertex. */
  predicate IsOut(all: seq<string>) {
    |Body(all)| == 4 && Body(all)[2] == ""
  }

  /** Takes the tokens apart into pieces and the text these are written as, or finds that they form no edge. */
  method Dissect(all: seq<string>) returns (r: Option<Pieces>, target: string)
    ensures forall p: Pieces {:trigger TokensOf(all, p)} :: TokensOf(all, p) ==> r == Some(p)
    ensures r.Some? ==>
              var p := r.value;
              && p.v1 in all && p.labelName in all && p.v2 in all && (p.dir.UNDIRECTED? ==> p.kind.REGULAR?)
              && (p.dir.DIRECTED? && !IsOut(all) ==> p.labelName != "") && target == Written(p, IsOut(all))
  {
    var tokens, kind := all, REGULAR;
    target := "";
    if |tokens| == 5 {
      kind, target := PrefixKind(tokens[0]);
      tokens := tokens[1..];
    }
    r := None;
    if |tokens| == 4 {
      if tokens[2] == "" {
        r := Some(Pieces(tokens[0], tokens[1], tokens[3], kind, DIRECTED));
        target := target + tokens[0] + "-" + tokens[1] + "->" + tokens[3];
      } else if tokens[1] == "" {
        r := Some(Pieces(tokens[3], tokens[2], tokens[0], kind, DIRECTED));
        target := target + tokens[0] + "<-" + tokens[2] + "-" + tokens[3];
      }
    } else if |tokens| == 3 {
      r := Some(Pieces(tokens[0], tokens[1], tokens[2], kind, UNDIRECTED));
      target := tokens[0] + "-" + tokens[1] + "-" + tokens[2];
    }
  }

  /** The two ways to join the pieces of a text. */
  lemma {:induction false} WrittenIs(p: Pieces)
    ensures p.dir.DIRECTED? ==> Written(p, true) == OutText(p.kind, p.v1, p.labelName, p.v2)
    ensures p.dir.DIRECTED? ==> Written(p, false) == InText(p.kind, p.v1, p.labelName, p.v2)
    ensures p.dir.UNDIRECTED? ==> Written(p, true) == Written(p, false) == PlainText(p.v1, p.labelName, p.v2)
  {
    OutJoined(Prefix(p.kind), p.v1, p.labelName, p.v2);
    InJoined(Prefix(p.kind), p.v1, p.labelName, p.v2);
    PlainJoined(p.v1, p.labelName, p.v2);
  }

  lemma {:induction false} OutJoined(k: string, v: string, l: string, w: string)
    ensures k + (v + "-" + (l + "-" + ("" + ">" + w))) == k + v + "-" + l + "->" + w
  {
  }

  lemma {:induction false} InJoined(k: string, v: string, l: string, w: string)
    ensures k + (w + "<" + ("" + "-" + (l + "-" + v))) == k + w + "<-" + l + "-" + v
  {
  }

  lemma {:induction false} PlainJoined(v: string, l: string, w: string)
    ensures v + "-" + (l + "-" + w) == v + "-" + l + "-" + w
  {
  }

  /** The pieces of a text are written as that text. */
  lemma {:induction false} TextIsTarget(s: string, p: Pieces)
    requires MadeOf(s, p)
    ensures s == Written(p, IsOut(Split(s, EDGE_SEPARATORS)))
  {
    WrittenIs(p);
    if p.dir.DIRECTED? {
      OutTokens(p.kind, p.v1, p.labelName, p.v2);
      InTokens(p.kind, p.v1, p.labelName, p.v2);
      if s == OutText(p.kind, p.v1, p.labelName, p.v2) {
        OutBody(Split(s, EDGE_SEPARATORS), p.kind, p.v1, p.labelName, p.v2);
      } else {
        InBody(Split(s, EDGE_SEPARATORS), p.kind, p.v1, p.labelName, p.v2);
      }
    }
  }

  lemma {:induction false} OutBody(all: seq<string>, kind: EdgeKind, v: string, l: string, w: string)
    requires all == (if kind.REGULAR? then [] else [Word(kind)]) + [v, l, "", w]
    ensures IsOut(all)
  {
  }

  lemma {:induction false} InBody(all: seq<string>, kind: EdgeKind, v: string, l: string, w: string)
    requires all == (if kind.REGULAR? then [] else [Word(kind)]) + [w, "", l, v] && l != ""
    ensures !IsOut(all)
  {
  }

  /** Brackets and sizes of the pieces pass the assertions. */
  predicate InOrder(p: Pieces) {
    && Bracketed(p.labelName, '[', ']') && Bracketed(p.v1, '(', ')') && Bracketed(p.v2, '(', ')')
    && |p.labelName| < LABEL_SIZE_LIMIT + 2 && |p.v1| < NAME_SIZE_LIMIT + 2 && |p.v2| < NAME_SIZE_LIMIT + 2
  }

  lemma {:induction false} PiecesInOrder(e: ParsedEdge)
    requires Printable(e)
    ensures InOrder(PiecesFor(e)) && EdgeFor(PiecesFor(e)) == e
  {
    OuterOf(e.labelName, '[', ']');
    OuterOf(e.v1, '(', ')');
    OuterOf(e.v2, '(', ')');
  }

  function EdgeFor(p: Pieces): ParsedEdge
    requires |p.labelName| >= 2 && |p.v1| >= 2 && |p.v2| >= 2
  {
    ParsedEdge(Inner(p.labelName), Inner(p.v1), Inner(p.v2), p.kind, p.dir)
  }

  lemma {:induction false} OrderedPieces(p: Pieces)
    requires InOrder(p) && PiecesFree(p)
    ensures |p.labelName| >= 2 && |p.v1| >= 2 && |p.v2| >= 2
    ensures Printable(EdgeFor(p)) && PiecesFor(EdgeFor(p)) == p
  {
    InnerOf(p.labelName, '[', ']', EDGE_SEPARATORS);
    InnerOf(p.v1, '(', ')', EDGE_SEPARATORS);
    InnerOf(p.v2, '(', ')', EDGE_SEPARATORS);
  }

  /**
   * Parsing undoes writing: a string is accepted as e exactly when it is a way to write e. One that has no edge's shape
   * is rejected; one that has, but with brackets missing or names too long, makes an assertion fail.
   */
  method ParseEdge(s: string) returns (r: Outcome<ParsedEdge>)
    ensures forall e: ParsedEdge {:trigger IsText(s, e)} :: r == Accepted(e) <==> IsText(s, e)
    ensures r.Rejected? <==> forall p: Pieces :: !MadeOf(s, p)
    ensures r.AssertionFails? <==> exists p: Pieces {:trigger MadeOf(s, p)} :: MadeOf(s, p) && !InOrder(p)
  {
    var all := Split(s, EDGE_SEPARATORS);
    var d, target := Dissect(all);
    forall p: Pieces
      ensures MadeOf(s, p) ==> d == Some(p) && s == target
    {
      if MadeOf(s, p) {
        TextTokens(s, p);
        TextIsTarget(s, p);
      }
    }
    r := Rejected;
    if d.Some? && s == target {
      var p := d.value;
      TokensFree(s, EDGE_SEPARATORS);
      WrittenIs(p);
      assert MadeOf(s, p);
      r := AssertionFails;
      if InOrder(p) {
        OrderedPieces(p);
        r := Accepted(EdgeFor(p));
      }
    }
    forall e: ParsedEdge
      ensures r == Accepted(e) <==> IsText(s, e)
    {
      if Printable(e) {
        TextMadeOf(s, e);
        PiecesInOrder(e);
      }
    }
  }

  /** Both ways to write an edge, and no two edges share a text. */
  lemma {:induction false} TextsDiffer(s: string, e: ParsedEdge, e': ParsedEdge)
    requires IsText(s, e) && IsText(s, e')
    ensures e == e'
  {
    TextMadeOf(s, e);
    TextMadeOf(s, e');
    TextTokens(s, PiecesFor(e));
    TextTokens(s, PiecesFor(e'));
    SamePieces(Split(s, EDGE_SEPARATORS), PiecesFor(e), PiecesFor(e'));
    PiecesInOrder(e);
    PiecesInOrder(e');
  }

  lemma {:induction false} SamePieces(all: seq<string>, p: Pieces, q: Pieces)
    requires TokensOf(all, p) && TokensOf(all, q)
    ensures p == q
  {
  }

  // ----- constraints -----

  const CONSTRAINT_SEPARATORS: string := "<>"

  predicate OccursAt(s: string, pattern: string, i: nat) {
    i + |pattern| <= |s| && s[i..i + |pattern|] == pattern
  }

  predicate Occurs(s: string, pattern: string) {
    exists i: nat :: i <= |s| && OccursAt(s, pattern, i)
  }

  /** Names contain no angle bracket, differ, and fit their fields. */
  predicate PrintableConstraint(c: ParsedConstraint) {
    && Free(c.v1, CONSTRAINT_SEPARATORS) && Free(c.v2, CONSTRAINT_SEPARATORS)
    && |c.v1| < NAME_SIZE_LIMIT && |c.v2| < NAME_SIZE_LIMIT
    && c.notEqual && c.v1 != c.v2
  }

  function ConstraintText(c: ParsedConstraint): string {
    c.v1 + "<>" + c.v2
  }

  lemma {:induction false} TwoSeparators(s: string, i: nat, seps: string)
    requires i + 1 < |s| && s[i] in seps && s[i + 1] in seps
    ensures |Split(s, seps)| >= 3
    decreases i
  {
    if i == 0 {
      assert s[1..][0] == s[1];
    } else {
      TwoSeparators(s[1..], i - 1, seps);
    }
  }

  /** s is two names without angle brackets, of any size, around the sign. */
  ghost predicate TwoNames(s: string, v: string, w: string) {
    Free(v, CONSTRAINT_SEPARATORS) && Free(w, CONSTRAINT_SEPARATORS) && s == v + "<>" + w
  }

  predicate FirstIsThird(tokens: seq<string>) {
    |tokens| >= 3 && tokens[0] == tokens[2]
  }

  lemma {:induction false} NamesTokens(s: string, v: string, w: string)
    requires TwoNames(s, v, w)
    ensures Split(s, CONSTRAINT_SEPARATORS) == [v, "", w] && Occurs(s, "<>")
  {
    SplitPlain(w, CONSTRAINT_SEPARATORS);
    ConstraintPieces(v, w);
    SplitAt("", '>', w, CONSTRAINT_SEPARATORS);
    SplitAt(v, '<', ">" + w, CONSTRAINT_SEPARATORS);
  }

  lemma {:induction false} ConstraintPieces(v: string, w: string)
    ensures "" + ['>'] + w == ">" + w
    ensures v + ['<'] + (">" + w) == v + "<>" + w
    ensures Occurs(v + "<>" + w, "<>")
  {
    assert OccursAt(v + "<>" + w, "<>", |v|);
  }

  /**
   * Parsing a constraint undoes writing it; the two names of an accepted constraint differ. Without the sign, or with
   * more around it than two different names, the string is rejected; an assertion fails if the names on its two sides
   * are the same or if one is too long.
   */
  method ParseConstraint(s: string) returns (r: Outcome<ParsedConstraint>)
    ensures forall c: ParsedConstraint {:trigger ConstraintText(c)} ::
              r == Accepted(c) <==> PrintableConstraint(c) && s == ConstraintText(c)
    ensures r.AssertionFails? <==>
              || (Occurs(s, "<>") && FirstIsThird(Split(s, CONSTRAINT_SEPARATORS)))
              || exists v, w {:trigger TwoNames(s, v, w)} ::
                   TwoNames(s, v, w) && v != w && !(|v| < NAME_SIZE_LIMIT && |w| < NAME_SIZE_LIMIT)
  {
    forall v, w | TwoNames(s, v, w)
      ensures Split(s, CONSTRAINT_SEPARATORS) == [v, "", w] && Occurs(s, "<>")
    {
      NamesTokens(s, v, w);
    }
    r := Rejected;
    if Occurs(s, "<>") {
      ghost var i: nat :| i <= |s| && OccursAt(s, "<>", i);
      assert s[i] == s[i..i + 2][0] && s[i + 1] == s[i..i + 2][1];
      TwoSeparators(s, i, CONSTRAINT_SEPARATORS);
      var tokens := Split(s, CONSTRAINT_SEPARATORS);
      var v1, v2 := tokens[0], tokens[2];
      TokensFree(s, CONSTRAINT_SEPARATORS);
      if v1 == v2 {
        r := AssertionFails;
      } else if s == v1 + "<>" + v2 {
        assert TwoNames(s, v1, v2);
        if |v1| < NAME_SIZE_LIMIT && |v2| < NAME_SIZE_LIMIT {
          r := Accepted(ParsedConstraint(v1, v2, true));
        } else {
          r := AssertionFails;
        }
      }
    }
    forall c: ParsedConstraint
      ensures r == Accepted(c) <==> PrintableConstraint(c) && s == ConstraintText(c)
    {
      assert PrintableConstraint(c) && s == ConstraintText(c) ==> TwoNames(s, c.v1, c.v2);
    }
  }

  /** Constraints that were parsed never name one vertex twice. */
  lemma {:induction false} ParsedAreDistinct(names: map<string, nat>, vertices: seq<ParsedVertex>,
                                             parsed: seq<ParsedConstraint>, Q: QueryGraph)
    requires Names(names, vertices) && ConstraintsAre(names, parsed, Q.constraints)
    requires forall c {:trigger parsed[c]} :: 0 <= c < |parsed| ==> PrintableConstraint(parsed[c])
    ensures DistinctConstraints(Q)
  {
    forall c {:trigger Q.constraints[c]} | 0 <= c < |Q.constraints|
      ensures Q.constraints[c].v1 != Q.constraints[c].v2
    {
      var q := Q.constraints[c];
      assert q == QConstraint(names[parsed[c].v1], names[parsed[c].v2], parsed[c].notEqual);
      assert vertices[names[parsed[c].v1]].name == parsed[c].v1 && vertices[names[parsed[c].v2]].name == parsed[c].v2;
    }
  }
}
