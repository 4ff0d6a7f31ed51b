# Sequential solver dispatcher

This project models `SmartSolverSequential` from the task scheduler. Its job is to pick one of two exact scheduling algorithms for a task graph: best-first A* search or depth-first branch-and-bound (BnB).

The choice is made once, when the dispatcher is constructed. It is a fixed rule, applied in priority order:

1. A single processor gets BnB.
2. Otherwise, a graph whose inward and outward edge maps are both empty gets BnB.
3. Otherwise, A* is picked.

After that, solving just forwards the call to the chosen solver.

The project has three modules:

- `Graphs` (`graph.dfy`) covers the only part of the graph the dispatcher reads: the inward and outward edge maps. The inward map holds reverse edges, which carry no cost. "Empty" means what `java.util.Map.isEmpty()` means: the map has no keys.
- `SmartSolverSequential` (`smart_solver_sequential.dfy`) holds the following:
  - the `Solver` enum and its kind-to-class mapping;
  - the selection rule;
  - the solver factory, which stands in for the reflective construction;
  - the constructor;
  - the delegating `doSolve`.

  The two search algorithms are abstract function parameters, `aStar` and `dfs`, from a problem (graph and processor count) to a result of any type.
- `SolverSuite` (`solver_suite.dfy`) models the parameterised solver test suite. Each fixture is run through the A* solver, the DFS solver and the dispatcher, and each run must report the expected final time. The module proves two things:
  - the dispatcher can only fail a fixture that one of the two solvers also fails;
  - when the two solvers agree on every fixture, all three parameters fail exactly the same fixtures.

Two details of the code decide what the model takes as input:

- The comment on rule 2 in `SmartSolverSequential.java:57` reads "No edges". The test itself, however, asks whether both edge maps have no keys. A map with a key bound to an empty list therefore counts as non-empty. On any processor count other than 1, such a graph gets A* although it records no edge (`SmartSolverSequential.EdgelessKeyedGraphGetsAStar`). The other direction holds: a graph that lists an actual edge never has empty maps (`Graphs.ListedEdgeMakesMapNonEmpty`).
- The code only compares the processor count with 1. The model takes any `int` and adds no validation, so zero and negative counts fall through to the edge rule.

## Model

| member | source | states |
|---|---|---|
| Graphs.ListedEdgeMakesMapNonEmpty | src/main/java/Solver/SmartSolverSequential.java:57 | a graph map that lists at least one edge is not empty in the `isEmpty()` sense |
| Graphs.EmptyListKeepsMapNonEmpty | src/main/java/Solver/SmartSolverSequential.java:57 | a map whose only key holds an empty edge list is non-empty although it lists no edge, so the emptiness test is about keys, not edges |
| SmartSolverSequential.SolverClassMapping | src/main/java/Solver/SmartSolverSequential.java:17-18 | AStar names the A* solver class, BnB names the DFS solver class, and the mapping is one-to-one, with `KindOf` as its inverse |
| SmartSolverSequential.Select | src/main/java/Solver/SmartSolverSequential.java:51-64 | BnB is chosen if and only if there is one processor or both edge maps are empty; A* is chosen if and only if the count is not 1 and some map is non-empty, so exactly one kind results for every input |
| SmartSolverSequential.SingleProcessorPicksBnB | src/main/java/Solver/SmartSolverSequential.java:55-56 | with one processor the kind is BnB, whatever the graph |
| SmartSolverSequential.EmptyEdgeMapsPickBnB | src/main/java/Solver/SmartSolverSequential.java:57-58 | when both edge maps are empty the kind is BnB, for every processor count |
| SmartSolverSequential.NonEmptyEdgeMapPicksAStar | src/main/java/Solver/SmartSolverSequential.java:59-60 | with a processor count other than 1 and a non-empty edge map in either direction, the kind is A* |
| SmartSolverSequential.EdgesPickAStarUnlessSingleProcessor | src/main/java/Solver/SmartSolverSequential.java:53-60 | for a graph with an actual edge, A* is chosen exactly when the count is not 1, because the processor rule takes precedence over the edge rule |
| SmartSolverSequential.EdgelessKeyedGraphGetsAStar | src/main/java/Solver/SmartSolverSequential.java:57-60 | on any processor count other than 1, a graph whose outward map binds a vertex to an empty list records no edge yet gets A*, because the rule tests map keys rather than edges |
| SmartSolverSequential.SelectionDependsOnlyOnEmptiness | src/main/java/Solver/SmartSolverSequential.java:55-57 | two graphs with the same emptiness of their edge maps get the same kind for the same processor count |
| SmartSolverSequential.InitialiseSolver | src/main/java/Solver/SmartSolverSequential.java:66-68 | the delegate built for a kind is of the class that kind names, and receives the dispatcher's own graph and processor count unchanged |
| SmartSolverSequential.NewSmartSolver | src/main/java/Solver/SmartSolverSequential.java:32-35 | construction keeps the graph and processor count, fixes the kind by the selection rule, and builds the matching delegate before any solving |
| SmartSolverSequential.DoSolve | src/main/java/Solver/SmartSolverSequential.java:74-77 | the dispatcher's result is exactly the A* solver's result on its inputs when the kind is A*, and the DFS solver's result when it is BnB |
| SmartSolverSequential.SolveByRules | src/main/java/Solver/SmartSolverSequential.java:51-77 | end to end, one processor or empty edge maps yield the DFS solver's result, and anything else yields the A* solver's result |
| SmartSolverSequential.DispatchIsNeutral | src/test/java/TestSolversSequential.java:48-51 | when both solvers report the same final time on a problem, the dispatcher reports that same time, whichever solver it picked |
| SolverSuite.FailuresFrom | src/test/java/TestSolversSequential.java:57-61 | an index is in the result exactly when it is a fixture index from `k` on whose final time differs from the expected one for the given solver |
| SolverSuite.SmartFailsOnlyWhereASolverFails | src/test/java/TestSolversSequential.java:48-61 | every fixture the dispatcher fails is also failed by the A* solver or by the DFS solver |
| SolverSuite.SuiteIsNeutral | src/test/java/TestSolversSequential.java:48-51 | when the two solvers agree on every fixture's final time, the dispatcher, A* and DFS fail exactly the same fixtures, so every parameter of the suite fails the same set |

## Left out

- The A* and DFS search algorithms and the search state are not part of this model. They are abstract parameters, and nothing is claimed about their optimality.
- Reflective construction and swallowed exceptions (`SmartSolverSequential.java:66-72`) are left out. The factory is total over the closed enum. The path where construction fails and leaves the delegate unset, so that a later solve dereferences nothing, is not modelled.
- SmartSolverSequential.DoSolve: in the source, `doSolve()` returns nothing. It only calls the delegate's `doSolve()`, and the delegate works on the very graph object the dispatcher holds. The test reads the final time from the dispatcher object, through the base class, which is not part of this model. The model assumes that the dispatcher reports its delegate's result and final time. `SmartSolverSequential.DispatchIsNeutral` and the suite lemmas rest on that assumption; the shared, mutable graph is not modelled.
- The base solver class, its fields and its final-time accessor are not part of this model. The final time is an abstract function `finalTime` of a solver's result.
- The suite is parameterised over a class named `SmartSolver`, whose source is not part of this model. The suite's neutrality lemmas are stated for this dispatcher.
- The concrete fixture values (final times 12, 3, 28, 22, 57, 96, and so on) are left out. They depend on graph description files that are not part of this model.
- Parsing, graph construction and the parser tests are left out, as are logging and graph export in the tests.
- The selection heuristics that exist only as a to-do comment (JVM memory, estimated queue size) are left out. No code implements them.
