/** Putting the runs together: listing their assignments lists the homomorphisms of the query, each once. */
module RunLists {
  import opened Sequences
  import opened SearchTrees
  import opened Launches
  import opened Grids
  import opened PlanTrees
  import opened PlanCoverage
  import opened TaskPackers
  import opened Engines
  import opened RunMatches

  /** The assignment lies in one of the runs from lo to hi. */
  ghost predicate InSomeRun(E: Engine, runs: seq<seq<Choice>>, lo: nat, hi: nat, h: Assignment)
    requires E.Ok() && E.P.Ok()
  {
    exists i: nat {:trigger runs[i]} :: lo <= i < hi && i < |runs| && InRun(E, runs[i], h)
  }

  /** hs lists the assignments of the runs from lo to hi, each once. */
  ghost predicate RunsListed(E: Engine, runs: seq<seq<Choice>>, lo: nat, hi: nat, hs: seq<Assignment>)
    requires E.Ok() && E.P.Ok()
  {
    NoDup(hs) && forall h {:trigger h in hs} :: h in hs <==> InSomeRun(E, runs, lo, hi, h)
  }

  lemma {:induction false} ListsNone(E: Engine, runs: seq<seq<Choice>>, lo: nat)
    requires E.Ok() && E.P.Ok()
    ensures RunsListed(E, runs, lo, lo, [])
  {
  }

  lemma {:induction false} OneRunOnly(E: Engine, runs: seq<seq<Choice>>, h: Assignment, lo: nat, mid: nat, hi: nat)
    requires E.Ok() && E.P.Ok() && NoDup(runs)
    ensures !(InSomeRun(E, runs, lo, mid, h) && InSomeRun(E, runs, mid, hi, h))
  {
    if InSomeRun(E, runs, lo, mid, h) && InSomeRun(E, runs, mid, hi, h) {
      var i: nat :| lo <= i < mid && i < |runs| && InRun(E, runs[i], h);
      var j: nat :| mid <= j < hi && j < |runs| && InRun(E, runs[j], h);
      OnePathOnly(E.P, runs[i], runs[j], h);
      assert false;
    }
  }

  lemma {:induction false} InParts(E: Engine, runs: seq<seq<Choice>>, h: Assignment, lo: nat, mid: nat, hi: nat)
    requires E.Ok() && E.P.Ok() && lo <= mid <= hi
    ensures InSomeRun(E, runs, lo, hi, h) <==> InSomeRun(E, runs, lo, mid, h) || InSomeRun(E, runs, mid, hi, h)
  {
  }

  lemma {:induction false} ListsJoin(E: Engine, runs: seq<seq<Choice>>, lo: nat, mid: nat, hi: nat, a: seq<Assignment>,
                                     b: seq<Assignment>)
    requires E.Ok() && E.P.Ok() && NoDup(runs) && lo <= mid <= hi
    requires RunsListed(E, runs, lo, mid, a) && RunsListed(E, runs, mid, hi, b)
    ensures RunsListed(E, runs, lo, hi, a + b)
  {
    forall h
      ensures !(h in a && h in b)
      ensures h in a + b <==> InSomeRun(E, runs, lo, hi, h)
    {
      OneRunOnly(E, runs, h, lo, mid, hi);
      InParts(E, runs, h, lo, mid, hi);
    }
    NoDupConcat(a, b);
  }

  lemma {:induction false} ListsOne(E: Engine, runs: seq<seq<Choice>>, i: nat, hs: seq<Assignment>)
    requires E.Ok() && E.P.Ok() && i < |runs| && NoDup(hs)
    requires forall h {:trigger h in hs} :: h in hs <==> InRun(E, runs[i], h)
    ensures RunsListed(E, runs, i, i + 1, hs)
  {
    forall h {:trigger h in hs}
      ensures h in hs <==> InSomeRun(E, runs, i, i + 1, h)
    {
      if InRun(E, runs[i], h) {
        assert InSomeRun(E, runs, i, i + 1, h);
      }
    }
  }

  /** One more run listed. */
  lemma {:induction false} ListsNext(E: Engine, runs: seq<seq<Choice>>, n: nat, before: seq<Assignment>,
                                     last: seq<Assignment>)
    requires E.Ok() && E.P.Ok() && n < |runs| && NoDup(runs) && NoDup(last)
    requires RunsListed(E, runs, 0, n, before)
    requires forall h {:trigger h in last} :: h in last <==> InRun(E, runs[n], h)
    ensures RunsListed(E, runs, 0, n + 1, before + last)
  {
    ListsOne(E, runs, n, last);
    ListsJoin(E, runs, 0, n, n + 1, before, last);
  }

  lemma {:induction false} CountsNext(S: Search, n: nat)
    ensures S.RangeCount(0, n + 1, []) == S.RangeCount(0, n, []) + |S.Matches(n, [])|
  {
  }

  /** As many assignments as the search finds matches in subtask k, and exactly those of run k, each once. */
  ghost predicate ListsRun(E: Engine, S: Search, runs: seq<seq<Choice>>, k: nat, hs: seq<Assignment>)
    requires E.Ok() && E.P.Ok()
  {
    && k < |runs| && |hs| == |S.Matches(k, [])| && NoDup(hs)
    && forall h {:trigger h in hs} :: h in hs <==> InRun(E, runs[k], h)
  }

  ghost predicate CanList(E: Engine, S: Search, runs: seq<seq<Choice>>, k: nat)
    requires E.Ok() && E.P.Ok()
  {
    exists hs {:trigger ListsRun(E, S, runs, k, hs)} :: ListsRun(E, S, runs, k, hs)
  }

  lemma {:induction false} ListsUpTo(E: Engine, S: Search, runs: seq<seq<Choice>>, n: nat) returns (hs: seq<Assignment>)
    requires E.Ok() && E.P.Ok() && n <= |runs| && NoDup(runs)
    requires forall k: nat {:trigger CanList(E, S, runs, k)} :: k < n ==> CanList(E, S, runs, k)
    ensures |hs| == S.RangeCount(0, n, []) && RunsListed(E, runs, 0, n, hs)
    decreases n
  {
    if n == 0 {
      hs := [];
      ListsNone(E, runs, 0);
    } else {
      var before := ListsUpTo(E, S, runs, n - 1);
      assert CanList(E, S, runs, n - 1);
      var last :| ListsRun(E, S, runs, n - 1, last);
      ListsNext(E, runs, n - 1, before, last);
      CountsNext(S, n - 1);
      hs := before + last;
    }
  }

  /** The first n matches lists of a launch, together, list the assignments of its first n runs. */
  lemma {:induction false} LaunchLists(E: Engine, task: Task, mine: seq<seq<Choice>>, L: Launch, n: nat)
    returns (hs: seq<Assignment>)
    requires LaunchOf(E, task, mine, L) && n <= |mine| && NoDup(mine)
    ensures |hs| == L.TheSearch().RangeCount(0, n, [])
    ensures RunsListed(E, mine, 0, n, hs)
  {
    var S := L.TheSearch();
    forall k: nat {:trigger CanList(E, S, mine, k)} | k < n
      ensures CanList(E, S, mine, k)
    {
      var one := SubtaskMatches(E, task, mine, L, k);
      assert ListsRun(E, S, mine, k, one);
    }
    hs := ListsUpTo(E, S, mine, n);
  }

  lemma {:induction false} ListsShift(E: Engine, runs: seq<seq<Choice>>, lo: nat, mine: seq<seq<Choice>>,
                                      hs: seq<Assignment>)
    requires E.Ok() && E.P.Ok() && lo + |mine| <= |runs| && mine == runs[lo..lo + |mine|]
    requires RunsListed(E, mine, 0, |mine|, hs)
    ensures RunsListed(E, runs, lo, lo + |mine|, hs)
  {
    forall h
      ensures InSomeRun(E, mine, 0, |mine|, h) <==> InSomeRun(E, runs, lo, lo + |mine|, h)
    {
      if InSomeRun(E, mine, 0, |mine|, h) {
        var i: nat :| i < |mine| && InRun(E, mine[i], h);
        assert runs[lo + i] == mine[i];
      }
      if InSomeRun(E, runs, lo, lo + |mine|, h) {
        var i: nat :| lo <= i < lo + |mine| && InRun(E, runs[i], h);
        assert mine[i - lo] == runs[i];
      }
    }
  }

  /** Every homomorphism the kernel wants lies in some run. */
  lemma {:induction false} HomomorphismInRun(E: Engine, h: Assignment)
    requires E.Ok() && E.P.Ok() && IsHomomorphism(E.P, h) && Wanted(E, h)
    ensures InSomeRun(E, E.P.Runs([]), 0, |E.P.Runs([])|, h)
  {
    var runs := E.P.Runs([]);
    var path := HomomorphismHasPath(E.P, h);
    assert InRun(E, path, h);
    var i: nat :| i < |runs| && runs[i] == path;
  }

  lemma {:induction false} RunIsHomomorphism(E: Engine, runs: seq<seq<Choice>>, n: nat, h: Assignment)
    requires E.Ok() && E.P.Ok() && InSomeRun(E, runs, 0, n, h)
    ensures IsHomomorphism(E.P, h) && Wanted(E, h)
  {
    AllTouched(E);
    var i: nat :| i < n && i < |runs| && InRun(E, runs[i], h);
    RealizedIsHomomorphism(E.P, runs[i], h);
  }

  /** All runs together list exactly the homomorphisms, constraints included. */
  lemma {:induction false} AllRunsList(E: Engine, hs: seq<Assignment>, h: Assignment)
    requires E.Ok() && E.P.Ok() && RunsListed(E, E.P.Runs([]), 0, |E.P.Runs([])|, hs)
    ensures h in hs <==> IsHomomorphism(E.P, h) && Wanted(E, h)
  {
    if InSomeRun(E, E.P.Runs([]), 0, |E.P.Runs([])|, h) {
      RunIsHomomorphism(E, E.P.Runs([]), |E.P.Runs([])|, h);
    } else if IsHomomorphism(E.P, h) && Wanted(E, h) {
      HomomorphismInRun(E, h);
    }
  }
}
