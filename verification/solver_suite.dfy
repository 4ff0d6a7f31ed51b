/**
  The parameterised solver test suite.

  Every fixture (a graph, a processor count, an expected final time) is run
  through each solver class the suite is parameterised over: the A* solver,
  the DFS solver and the dispatcher. A run passes when the solver's final time
  equals the expected one. The same expectation holds for all three classes,
  so the suite as a whole requires the three to agree.
 */
module SolverSuite {
  import opened Graphs
  import opened SmartSolverSequential

  /** The solver classes the suite is parameterised over. */
  datatype TestedSolver = TestedAStar | TestedDFS | TestedSmart

  /** The parameter list, in the order the suite declares it. */
  const Parameters: seq<TestedSolver> := [TestedAStar, TestedDFS, TestedSmart]

  /** One test case: a graph, a processor count and the final time the test expects. */
  datatype Fixture = Fixture(processorCount: int, graph: Graph, expectedFinalTime: int)

  function ProblemOf(f: Fixture): Problem
  {
    Problem(f.graph, f.processorCount)
  }

  /** The tester's `doTest`: build the tested solver on the fixture and solve. */
  function DoTest<S>(t: TestedSolver, f: Fixture, aStar: Problem -> S, dfs: Problem -> S): S
  {
    match t
    case TestedAStar => aStar(ProblemOf(f))
    case TestedDFS => dfs(ProblemOf(f))
    case TestedSmart => DoSolve(NewSmartSolver(f.graph, f.processorCount), aStar, dfs)
  }

  /** One test: the reported final time is the expected one. */
  predicate Passes<S>(t: TestedSolver, f: Fixture, aStar: Problem -> S, dfs: Problem -> S, finalTime: S -> int)
  {
    finalTime(DoTest(t, f, aStar, dfs)) == f.expectedFinalTime
  }

  /** The indices, from `k` on, of the fixtures on which solver `t` fails. */
  function FailuresFrom<S>(t: TestedSolver, fixtures: seq<Fixture>, k: nat,
                           aStar: Problem -> S, dfs: Problem -> S, finalTime: S -> int): (r: set<int>)
    requires k <= |fixtures|
    ensures forall i :: i in r <==> k <= i < |fixtures| && !Passes(t, fixtures[i], aStar, dfs, finalTime)
    decreases |fixtures| - k
  {
    if k == |fixtures| then
      {}
    else
      var rest := FailuresFrom(t, fixtures, k + 1, aStar, dfs, finalTime);
      if Passes(t, fixtures[k], aStar, dfs, finalTime) then rest else {k} + rest
  }

  /** The indices of all failing fixtures of solver `t`. */
  function Failures<S>(t: TestedSolver, fixtures: seq<Fixture>,
                       aStar: Problem -> S, dfs: Problem -> S, finalTime: S -> int): set<int>
  {
    FailuresFrom(t, fixtures, 0, aStar, dfs, finalTime)
  }

  /**
    Whatever the solvers do, the dispatcher fails a fixture only when the
    A* solver or the DFS solver fails it as well: its final time is always one
    of theirs.
   */
  lemma SmartFailsOnlyWhereASolverFails<S>(fixtures: seq<Fixture>, aStar: Problem -> S, dfs: Problem -> S,
                                           finalTime: S -> int)
    ensures Failures(TestedSmart, fixtures, aStar, dfs, finalTime)
            <= Failures(TestedAStar, fixtures, aStar, dfs, finalTime) + Failures(TestedDFS, fixtures, aStar, dfs, finalTime)
  {
    var smart := Failures(TestedSmart, fixtures, aStar, dfs, finalTime);
    forall i | i in smart
      ensures i in Failures(TestedAStar, fixtures, aStar, dfs, finalTime) + Failures(TestedDFS, fixtures, aStar, dfs, finalTime)
    {
      var f := fixtures[i];
      var s := NewSmartSolver(f.graph, f.processorCount);
      if s.solver == AStar {
        assert !Passes(TestedAStar, f, aStar, dfs, finalTime);
      } else {
        assert !Passes(TestedDFS, f, aStar, dfs, finalTime);
      }
    }
  }

  /**
    Correctness neutrality over a suite: when the A* and DFS solvers report the
    same final time on every fixture, the dispatcher fails exactly the fixtures
    they fail, so all three parameters of the suite pass or fail together.
   */
  lemma SuiteIsNeutral<S>(fixtures: seq<Fixture>, aStar: Problem -> S, dfs: Problem -> S, finalTime: S -> int)
    requires forall i :: 0 <= i < |fixtures| ==>
               finalTime(aStar(ProblemOf(fixtures[i]))) == finalTime(dfs(ProblemOf(fixtures[i])))
    ensures Failures(TestedSmart, fixtures, aStar, dfs, finalTime) == Failures(TestedAStar, fixtures, aStar, dfs, finalTime)
    ensures Failures(TestedSmart, fixtures, aStar, dfs, finalTime) == Failures(TestedDFS, fixtures, aStar, dfs, finalTime)
    ensures forall j :: 0 <= j < |Parameters| ==>
              Failures(Parameters[j], fixtures, aStar, dfs, finalTime) == Failures(TestedAStar, fixtures, aStar, dfs, finalTime)
  {
    var smart := Failures(TestedSmart, fixtures, aStar, dfs, finalTime);
    var astar := Failures(TestedAStar, fixtures, aStar, dfs, finalTime);
    var dfsF := Failures(TestedDFS, fixtures, aStar, dfs, finalTime);
    forall i | 0 <= i < |fixtures|
      ensures (i in smart <==> i in astar) && (i in smart <==> i in dfsF)
    {
      var f := fixtures[i];
      DispatchIsNeutral(f.graph, f.processorCount, aStar, dfs, finalTime);
    }
    assert smart == astar;
    assert smart == dfsF;
    forall j | 0 <= j < |Parameters|
      ensures Failures(Parameters[j], fixtures, aStar, dfs, finalTime) == astar
    {
      assert Parameters[j] in {TestedAStar, TestedDFS, TestedSmart};
    }
  }
}
