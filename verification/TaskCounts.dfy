/** One kernel task from its packed groups to its counter, for any of the three kernels. */
module TaskCounts {
  import opened Machine
  import opened Sequences
  import opened QueryGraphs
  import opened Schedules
  import opened SlotTables
  import opened SlotLayouts
  import opened Launches
  import opened LaunchTables
  import opened SearchTrees
  import opened LaunchMatches
  import opened Grids
  import opened PlanLevels
  import opened TaskPackers
  import opened TaskTrees
  import opened TreeCsrs
  import opened Headers
  import opened KernelGrids
  import opened TaskLaunches

  /**
   * Rebuilds a task's tree, fills the header and launches the kernel: the counter is the number of matches of its
   * subtasks.
   */
  method LaunchTask(variant: Variant, Q: QueryGraph, s: Schedule, T: Tables, task: Task, infos: seq<TreeInfo>,
                    blocks: nat,
                    ghost C: Compiled, ghost marks: seq<seq<Leaf>>)
    returns (counter: nat, ghost L: Launch)
    requires C.Ok() && C == CompiledOf(variant, Q, s, T) && TaskShards(C, task) && MAX_BLOCKS <= blocks <= 0x1_0000
    requires ShapeOfTask(C, task).Ok() && InfosFit(ShapeOfTask(C, task), infos, marks)
    ensures Uploaded(C, task, L) && L.Valid()
    ensures counter == L.TheSearch().RangeCount(0, |task.subtasks|, [])
  {
    var S := Shape(|Q.vertices|, NumOwners(s), VertexEnds(s.elevelToVlevel, NumOwners(s)), task.subtasks);
    var lists, nid, roots;
    ghost var parent;
    lists, nid, roots, parent := BuildLists(S, infos, marks);
    var tree := Compress(lists, nid, roots, parent);
    var header := MakeHeader(variant, Q, s, T, task, tree, roots);
    HeaderUploaded(C, task, header);
    LaunchIsValid(C, task, header, lists, nid, parent);
    counter := RunGrid(header, blocks);
    L := header;
  }

  lemma {:induction false} HeaderUploaded(C: Compiled, task: Task, L: Launch)
    requires FromTables(L, C.Q, C.s, C.T) && L.variant == C.variant
    requires L.shards == ShardsOf(task.total) && |L.subtasks| == |task.subtasks|
    requires forall k: nat {:trigger L.subtasks[k]} :: k < |L.subtasks| ==>
              |L.subtasks[k]| == 2 * |C.Q.edges|
                  && IdxsOk(C.T, task.total, task.subtasks[k], L.subtasks[k], |C.Q.edges|)
    ensures Uploaded(C, task, L)
  {
  }

  // ----- the answers of a subtask -----

  /** b (by depth) passes the edge of turn i: a regular edge is in the turn's shard, a negative one is not. */
  ghost predicate Passes(C: Compiled, leaves: seq<Leaf>, b: seq<nat>, i: nat)
    requires C.Ok() && |b| == |C.Q.vertices| && i < |C.Q.edges|
  {
    i < |leaves| && Ids(C.s)[i] < |C.Q.edges| && EdgeFits(C.Q, C.s.rank, leaves[i].shard, Ids(C.s)[i], b)
  }

  /** b answers the query on the shards of one subtask. */
  ghost predicate IsAnswer(C: Compiled, leaves: seq<Leaf>, b: seq<nat>)
    requires C.Ok()
  {
    && |b| == |C.Q.vertices|
    && (forall i: nat {:trigger Passes(C, leaves, b, i)} :: i < |C.Q.edges| ==> Passes(C, leaves, b, i))
    && (C.variant.Constraint? ==> ConstraintsFit(C.Q, C.s.rank, b))
  }

  ghost predicate AnswersAre(C: Compiled, leaves: seq<Leaf>, answers: seq<seq<nat>>)
    requires C.Ok()
  {
    NoDup(answers) && forall b {:trigger b in answers} :: b in answers <==> IsAnswer(C, leaves, b)
  }

  lemma {:induction false} PassesIff(C: Compiled, task: Task, L: Launch, k: nat, b: seq<nat>, i: nat)
    requires C.Ok() && Uploaded(C, task, L) && L.Ready() && k < |task.subtasks| && |b| == |C.Q.vertices|
             && i < |C.Q.edges|
    ensures Good(SettingOf(L, C.Q, C.s, C.T)) && Paired(L, C.T, k)
    ensures Satisfies(SettingOf(L, C.Q, C.s, C.T), k, b, i) <==> Passes(C, task.subtasks[k], b, i)
  {
    ReadsPairs(C, task, L, k);
    ReadsChosen(C, task, L, k, i);
  }

  lemma {:induction false} AnswerIff(C: Compiled, task: Task, L: Launch, k: nat, b: seq<nat>)
    requires C.Ok() && Uploaded(C, task, L) && L.Ready() && k < |task.subtasks|
    ensures Good(SettingOf(L, C.Q, C.s, C.T)) && Paired(L, C.T, k)
    ensures IsEmbedding(SettingOf(L, C.Q, C.s, C.T), k, b) <==> IsAnswer(C, task.subtasks[k], b)
  {
    var S := SettingOf(L, C.Q, C.s, C.T);
    ReadsPairs(C, task, L, k);
    if |b| == |C.Q.vertices| {
      forall i: nat | i < |C.Q.edges|
        ensures Satisfies(S, k, b, i) <==> Passes(C, task.subtasks[k], b, i)
      {
        PassesIff(C, task, L, k, b, i);
      }
      EdgesAgree(C, S, k, b, task.subtasks[k]);
    }
  }

  lemma {:induction false} EdgesAgree(C: Compiled, S: Setting, k: nat, b: seq<nat>, leaves: seq<Leaf>)
    requires C.Ok() && Good(S) && S.Q == C.Q && Paired(S.L, S.T, k) && |b| == S.L.numVertices == |C.Q.vertices|
    requires forall i: nat {:trigger Satisfies(S, k, b, i)} {:trigger Passes(C, leaves, b, i)} ::
              i < |C.Q.edges| ==> (Satisfies(S, k, b, i) <==> Passes(C, leaves, b, i))
    ensures EdgesHold(S, k, b) <==> forall i: nat {:trigger Passes(C, leaves, b, i)} :: i < |C.Q.edges| ==>
              Passes(C, leaves, b, i)
  {
  }

  /** What the kernel counts for subtask k: every answer on its shards, once. */
  lemma {:induction false} MatchesAreAnswers(C: Compiled, task: Task, L: Launch, k: nat)
    requires C.Ok() && Uploaded(C, task, L) && L.Ready() && k < |task.subtasks|
    ensures AnswersAre(C, task.subtasks[k], L.TheSearch().Matches(k, []))
  {
    var S, bs := SettingOf(L, C.Q, C.s, C.T), L.TheSearch().Matches(k, []);
    ReadsPairs(C, task, L, k);
    MatchesAreEmbeddings(S, k);
    forall b {:trigger b in bs}
      ensures b in bs <==> IsAnswer(C, task.subtasks[k], b)
    {
      AnswerIff(C, task, L, k, b);
    }
  }

  // ----- the counter -----

  ghost function Lengths(answers: seq<seq<seq<nat>>>): nat {
    if answers == [] then 0 else Lengths(answers[..|answers| - 1]) + |answers[|answers| - 1]|
  }

  /** answers lists the answers of the first subtasks, one list each. */
  ghost predicate AllAnswers(C: Compiled, task: Task, answers: seq<seq<seq<nat>>>)
    requires C.Ok()
  {
    && |answers| <= |task.subtasks|
    && forall k: nat {:trigger answers[k]} :: k < |answers| ==> AnswersAre(C, task.subtasks[k], answers[k])
  }

  lemma {:induction false} LengthsSnoc(answers: seq<seq<seq<nat>>>, last: seq<seq<nat>>)
    ensures Lengths(answers + [last]) == Lengths(answers) + |last|
  {
    assert (answers + [last])[..|answers|] == answers;
  }

  lemma {:induction false} AllAnswersSnoc(C: Compiled, task: Task, answers: seq<seq<seq<nat>>>, last: seq<seq<nat>>)
    requires C.Ok() && AllAnswers(C, task, answers) && |answers| < |task.subtasks|
    requires AnswersAre(C, task.subtasks[|answers|], last)
    ensures AllAnswers(C, task, answers + [last])
  {
  }

  lemma {:induction false} CountSnoc(S: Search, n: nat)
    requires n > 0
    ensures S.RangeCount(0, n, []) == S.RangeCount(0, n - 1, []) + |S.Matches(n - 1, [])|
  {
  }

  lemma {:induction false} CollectAnswers(C: Compiled, task: Task, L: Launch, n: nat)
    returns (answers: seq<seq<seq<nat>>>)
    requires C.Ok() && Uploaded(C, task, L) && L.Ready() && n <= |task.subtasks|
    ensures |answers| == n && AllAnswers(C, task, answers) && Lengths(answers) == L.TheSearch().RangeCount(0, n, [])
    decreases n
  {
    if n == 0 {
      answers := [];
    } else {
      var before := CollectAnswers(C, task, L, n - 1);
      var last := L.TheSearch().Matches(n - 1, []);
      MatchesAreAnswers(C, task, L, n - 1);
      answers := before + [last];
      AllAnswersSnoc(C, task, before, last);
      LengthsSnoc(before, last);
      CountSnoc(L.TheSearch(), n);
    }
  }

  /**
   * The counter of a task's launch, in any of the three kernels: the number of answers on the shards of each subtask,
   * added up. For the negative kernel these are the assignments with every regular edge present and every negative one
   * absent.
   */
  method CountAnswers(variant: Variant, Q: QueryGraph, s: Schedule, T: Tables, task: Task, infos: seq<TreeInfo>,
                      blocks: nat, ghost C: Compiled, ghost marks: seq<seq<Leaf>>)
    returns (counter: nat)
    requires C.Ok() && C == CompiledOf(variant, Q, s, T) && TaskShards(C, task) && MAX_BLOCKS <= blocks <= 0x1_0000
    requires ShapeOfTask(C, task).Ok() && InfosFit(ShapeOfTask(C, task), infos, marks)
    ensures exists answers {:trigger AllAnswers(C, task, answers)} ::
              |answers| == |task.subtasks| && AllAnswers(C, task, answers) && counter == Lengths(answers)
  {
    ghost var L;
    counter, L := LaunchTask(variant, Q, s, T, task, infos, blocks, C, marks);
    ghost var answers := CollectAnswers(C, task, L, |task.subtasks|);
    assert AllAnswers(C, task, answers);
  }
}
