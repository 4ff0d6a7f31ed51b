/**
  The sequential strategy dispatcher.

  When it is built, the dispatcher looks at the processor count and at the
  graph's two edge maps. It picks one of two exact solvers: best-first search
  (A*) or depth-first branch-and-bound (BnB). Solving then forwards the call to
  the chosen solver and does nothing else.

  The search algorithms themselves are not part of this model. They appear as
  two abstract functions from a problem (graph and processor count) to a
  result of an arbitrary type `S`.
 */
module SmartSolverSequential {
  import opened Graphs

  /** The `Solver` enum: the strategies the dispatcher can choose from. */
  datatype SolverKind = AStar | BnB

  /** The solver classes the enum constants name. */
  datatype SolverClass = AStarSolver | DFSSolver

  /** The two constructor inputs every solver accepts. */
  datatype Problem = Problem(graph: Graph, processorCount: int)

  /** A constructed solver: which class it is, and the inputs it was built with. */
  datatype SolverInstance = SolverInstance(solverClass: SolverClass, problem: Problem)

  /**
    A constructed dispatcher. `solver` is the kind chosen at construction and
    `currentSolver` the delegate built for it.
   */
  datatype SmartSolver = SmartSolver(problem: Problem, solver: SolverKind, currentSolver: SolverInstance)

  /** `Solver.getSolver()`: the class each enum constant stands for. */
  function SolverClassOf(k: SolverKind): SolverClass
  {
    match k
    case AStar => AStarSolver
    case BnB => DFSSolver
  }

  /** The enum constant that names a solver class. */
  function KindOf(c: SolverClass): SolverKind
  {
    match c
    case AStarSolver => AStar
    case DFSSolver => BnB
  }

  /**
    The kind-to-class mapping is fixed and one-to-one: AStar names the A*
    solver, BnB names the DFS solver, and each class is named by exactly one
    constant.
   */
  lemma SolverClassMapping(k: SolverKind, c: SolverClass)
    ensures SolverClassOf(AStar) == AStarSolver && SolverClassOf(BnB) == DFSSolver
    ensures KindOf(SolverClassOf(k)) == k
    ensures SolverClassOf(KindOf(c)) == c
  {
  }

  /**
    The selection rule, in priority order: one processor picks BnB; otherwise
    a graph whose inward and outward edge maps are both empty picks BnB;
    otherwise A* is picked. The processor count is only compared with 1, so
    zero and negative counts fall through to the edge rule.
   */
  function Select(processorCount: int, inwardEmpty: bool, outwardEmpty: bool): (k: SolverKind)
    ensures k == BnB <==> processorCount == 1 || (inwardEmpty && outwardEmpty)
    ensures k == AStar <==> processorCount != 1 && (!inwardEmpty || !outwardEmpty)
  {
    if processorCount == 1 then
      BnB
    else if inwardEmpty && outwardEmpty then
      BnB
    else
      AStar
  }

  /** `determineSolverToUse`: the rule applied to a graph's two edge maps. */
  function DetermineSolverToUse(pr: Problem): SolverKind
  {
    Select(pr.processorCount, IsEmptyMap(pr.graph.inwardEdgeMap), IsEmptyMap(pr.graph.outwardEdgeMap))
  }

  /** Rule 1: a single processor always gets BnB, whatever the graph holds. */
  lemma SingleProcessorPicksBnB(g: Graph)
    ensures DetermineSolverToUse(Problem(g, 1)) == BnB
  {
  }

  /** Rule 2: with more or fewer than one processor, a graph with no edge-map keys gets BnB. */
  lemma EmptyEdgeMapsPickBnB(g: Graph, processorCount: int)
    requires IsEmptyMap(g.inwardEdgeMap) && IsEmptyMap(g.outwardEdgeMap)
    ensures DetermineSolverToUse(Problem(g, processorCount)) == BnB
  {
  }

  /** Rule 3: otherwise, a non-empty edge map in either direction gets A*. */
  lemma NonEmptyEdgeMapPicksAStar(g: Graph, processorCount: int)
    requires processorCount != 1
    requires !IsEmptyMap(g.inwardEdgeMap) || !IsEmptyMap(g.outwardEdgeMap)
    ensures DetermineSolverToUse(Problem(g, processorCount)) == AStar
  {
  }

  /**
    Priority of the rules: a graph that records an actual edge gets A* on any
    processor count but 1, and BnB on exactly 1 processor, because rule 1 is
    checked before the edge rule.
   */
  lemma EdgesPickAStarUnlessSingleProcessor(g: Graph, processorCount: int)
    requires HasEdge(g)
    ensures DetermineSolverToUse(Problem(g, processorCount)) == AStar <==> processorCount != 1
  {
    if ListsSomeEdge(g.inwardEdgeMap) {
      ListedEdgeMakesMapNonEmpty(g.inwardEdgeMap);
    } else {
      ListedEdgeMakesMapNonEmpty(g.outwardEdgeMap);
    }
  }

  /**
    The converse of the edge rule fails: the rule tests map keys, not edges,
    so a graph whose outward map binds a vertex to an empty list records no
    edge yet gets A* on any processor count other than 1.
   */
  lemma EdgelessKeyedGraphGetsAStar(v: Vertex, processorCount: int)
    requires processorCount != 1
    ensures var g := Graph(map[], map[v := []]);
            !HasEdge(g) && DetermineSolverToUse(Problem(g, processorCount)) == AStar
  {
    EmptyListKeepsMapNonEmpty<EdgeWithCost>(v);
    var g := Graph(map[], map[v := []]);
    assert !IsEmptyMap(g.outwardEdgeMap);
  }

  /**
    The rule reads nothing of the graph but the emptiness of its two edge
    maps: graphs that agree on those get the same kind.
   */
  lemma SelectionDependsOnlyOnEmptiness(g1: Graph, g2: Graph, processorCount: int)
    requires IsEmptyMap(g1.inwardEdgeMap) == IsEmptyMap(g2.inwardEdgeMap)
    requires IsEmptyMap(g1.outwardEdgeMap) == IsEmptyMap(g2.outwardEdgeMap)
    ensures DetermineSolverToUse(Problem(g1, processorCount)) == DetermineSolverToUse(Problem(g2, processorCount))
  {
  }

  /**
    `initialiseSolver`: build the delegate for a kind from the same graph and
    processor count. The reflective lookup becomes a total function over the
    closed enum.
   */
  function InitialiseSolver(k: SolverKind, pr: Problem): (inst: SolverInstance)
    ensures KindOf(inst.solverClass) == k
    ensures inst.problem == pr
  {
    SolverInstance(SolverClassOf(k), pr)
  }

  /** What the constructor establishes and nothing afterwards changes. */
  predicate Valid(s: SmartSolver)
  {
    && s.solver == DetermineSolverToUse(s.problem)
    && s.currentSolver == InitialiseSolver(s.solver, s.problem)
  }

  /** The constructor: the kind is chosen once, here, before any solving. */
  function NewSmartSolver(g: Graph, processorCount: int): (s: SmartSolver)
    ensures Valid(s)
    ensures s.problem == Problem(g, processorCount)
  {
    var pr := Problem(g, processorCount);
    var k := DetermineSolverToUse(pr);
    SmartSolver(pr, k, InitialiseSolver(k, pr))
  }

  /** A delegate's own `doSolve`: the abstract search of its class on its inputs. */
  function RunSolver<S>(inst: SolverInstance, aStar: Problem -> S, dfs: Problem -> S): S
  {
    match inst.solverClass
    case AStarSolver => aStar(inst.problem)
    case DFSSolver => dfs(inst.problem)
  }

  /**
    `doSolve`: the result is exactly what the selected solver returns on the
    dispatcher's own graph and processor count.
   */
  function DoSolve<S>(s: SmartSolver, aStar: Problem -> S, dfs: Problem -> S): (r: S)
    requires Valid(s)
    ensures s.solver == AStar ==> r == aStar(s.problem)
    ensures s.solver == BnB ==> r == dfs(s.problem)
  {
    RunSolver(s.currentSolver, aStar, dfs)
  }

  /** End to end: the dispatcher's result on a graph, by the three rules. */
  lemma SolveByRules<S>(g: Graph, processorCount: int, aStar: Problem -> S, dfs: Problem -> S)
    ensures var r := DoSolve(NewSmartSolver(g, processorCount), aStar, dfs);
            var pr := Problem(g, processorCount);
            && (processorCount == 1 ==> r == dfs(pr))
            && (processorCount != 1 && IsEmptyMap(g.inwardEdgeMap) && IsEmptyMap(g.outwardEdgeMap) ==> r == dfs(pr))
            && (processorCount != 1 && !(IsEmptyMap(g.inwardEdgeMap) && IsEmptyMap(g.outwardEdgeMap)) ==> r == aStar(pr))
  {
  }

  /**
    Correctness neutrality: when both solvers report the same final time on a
    problem, the dispatcher reports that time too, whichever branch it takes.
   */
  lemma DispatchIsNeutral<S>(g: Graph, processorCount: int, aStar: Problem -> S, dfs: Problem -> S, finalTime: S -> int)
    requires finalTime(aStar(Problem(g, processorCount))) == finalTime(dfs(Problem(g, processorCount)))
    ensures var r := DoSolve(NewSmartSolver(g, processorCount), aStar, dfs);
            finalTime(r) == finalTime(aStar(Problem(g, processorCount)))
            && finalTime(r) == finalTime(dfs(Problem(g, processorCount)))
  {
  }
}
