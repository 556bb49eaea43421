# Tic-tac-toe classifier helpers: a Dafny model

This project models the self-contained core of
`WorkshopJupyterNotebooks/gqml_helpers.py`, the helper module of a quantum
machine-learning workshop that classifies tic-tac-toe boards. Four parts are
covered:

- **`who_won`** (`labeling.dfy`, module `Labeling`) labels a flattened
  row-major 3x3 board whose cells are 1 (X), -1 (O) and 0 (empty). It sums
  the cells of eight triples in a fixed order. The first triple that sums to
  3 gives the label `[1,-1,-1]` (X wins) and the first one that sums to -3
  gives `[-1,-1,1]` (O wins). If no triple matches, the label is `[-1,1,-1]`
  (draw). The Python code raises `IndexError` when the scan reads a cell
  past the end of the board before finding a decisive triple; the model
  returns an `IndexError(cell)` outcome for that. A short board whose
  decisive triple comes before any such read is labelled normally.
- **`split_data`** (`splitting.dfy`, module `Splitting`) splits a dataset
  into training and test parts. The training indices are an input, so the
  random draw is not modelled. The code projects positions and labels through
  the training indices, builds the set of all label indices, removes each
  training index from it, and projects through what is left. The left-over
  set is listed in an unspecified order.
- **The gate-block builders** `make_c`, `make_e`, `make_m`, `make_o`,
  `make_inn` and `make_d` (`blocks.dfy`, module `Blocks`). Each one builds a
  fresh 9-qubit circuit over a fixed qubit group: corners 0, 2, 6, 8; edges
  1, 3, 5, 7; centre 4.
- **`make_full_circuit`** (`full_circuit.dfy`, module `FullCircuit`)
  allocates `9*p*l` weight parameters and hands them to the blocks with a
  running counter.

Circuits are symbolic (`circuits.dfy`, module `Circuits`):

- A gate is `RX`, `RY` or `CRY`, with its qubits and an `Angle`.
- An angle is either weight parameter `Weight(i)` (the source's `theta_i`) or
  the encoding angle `Encoded(j)` of board cell `j`.
- The circuit object is a class holding a qubit count and a mutable
  instruction list.
- `append(sub, range(9))` adds one `Composite` instruction holding the
  sub-circuit's instructions, on the same qubits.

Every builder is an imperative method proved against a specification
function of its result. The properties the code promises are then proved as
lemmas about those functions:

- The eight triples are exactly the rows, columns and diagonals.
- The label is decided by the first decisive triple.
- The two index lists partition the dataset.
- Each block touches exactly its qubit group.
- Every weight index below `9*p*l` is used by exactly one block, in
  increasing order.

The alternating board `[1,-1,1,-1,1,-1,1,-1,1]` has X on both diagonals.
The scan reaches `[0,4,8]` third and labels it an X win
(`Labeling.AlternatingBoardIsXWin`).

## Model

| member | source | states |
|---|---|---|
| Labeling.ConfigurationShape | WorkshopJupyterNotebooks/gqml_helpers.py:5 | There are eight configurations, each of three cells, and every cell index is below 9. |
| Labeling.CellsOfConfigurations | WorkshopJupyterNotebooks/gqml_helpers.py:5 | In list order, the configurations cover row 0, column 0, the main diagonal, row 1, column 1, the anti-diagonal, column 2 and row 2. |
| Labeling.ConfigurationsAreWinningLines | WorkshopJupyterNotebooks/gqml_helpers.py:5 | Every configuration is a row, column or diagonal of the grid, made of three distinct cells. |
| Labeling.EveryWinningLineIsScanned | WorkshopJupyterNotebooks/gqml_helpers.py:5 | Every row, column and diagonal is one of the eight configurations. |
| Labeling.ConfigurationsAreDistinct | WorkshopJupyterNotebooks/gqml_helpers.py:5 | No two configurations cover the same line, so the list is exactly the 8 lines. |
| Labeling.WhoWon | WorkshopJupyterNotebooks/gqml_helpers.py:4-14 | The labeller's loops return the outcome of the scan specification: the configurations are tried in order, each summed cell by cell; a sum of 3 stops with X wins and -3 with O wins; otherwise a draw; a read past the end of the board gives IndexError for that cell. |
| Labeling.LineTotalOfFullBoard | WorkshopJupyterNotebooks/gqml_helpers.py:7-9 | On a board of at least nine cells, the inner loop never fails and yields the sum of the triple's three cells. |
| Labeling.ScanFindsFirstDecisive | WorkshopJupyterNotebooks/gqml_helpers.py:6-14 | Resuming at configuration k, the scan gives X wins or O wins exactly when the first triple at or after k summing to 3 or -3 has that sum, and gives a draw exactly when no triple from k on does. |
| Labeling.FirstDecisiveTripleDecides | WorkshopJupyterNotebooks/gqml_helpers.py:6-14 | On a full board the label is decided by the first triple in list order whose sum is 3 or -3: 3 gives [1,-1,-1] and -3 gives [-1,-1,1]; if there is no such triple the label is [-1,1,-1]. Each direction is proved both ways. |
| Labeling.FullBoardIsLabelled | WorkshopJupyterNotebooks/gqml_helpers.py:10-14 | A board of at least nine cells always gets a label, and the label is one of the three vectors. |
| Labeling.LabelsAreOneHot | WorkshopJupyterNotebooks/gqml_helpers.py:11-14 | Each of the three label vectors has three entries, exactly one of them 1 and the others -1, so its argmax is unique. |
| Labeling.OffBoardIsOwnCell | WorkshopJupyterNotebooks/gqml_helpers.py:8-9 | Summing a triple fails only at one of its own cells, and only when that cell is past the end of the board. |
| Labeling.ErrorOnlyOffBoard | WorkshopJupyterNotebooks/gqml_helpers.py:6-9 | The labeller fails only at a board cell 0..8 that lies past the end of a short board. |
| Labeling.CompletedLineSums | WorkshopJupyterNotebooks/gqml_helpers.py:7-13 | On a board of cells in {-1, 0, 1}, a triple sums to 3 exactly when X holds all of its cells, and to -3 exactly when O does. |
| Labeling.TopRowIsXWin | WorkshopJupyterNotebooks/gqml_helpers.py:10-11 | A board where X completed the top row is labelled [1,-1,-1]. |
| Labeling.AlternatingBoardIsXWin | WorkshopJupyterNotebooks/gqml_helpers.py:5-11 | The alternating board [1,-1,1,-1,1,-1,1,-1,1] is labelled an X win, found at the triple [0,4,8]. |
| Labeling.FullBoardDraw | WorkshopJupyterNotebooks/gqml_helpers.py:14 | A full board with no completed line is labelled [-1,1,-1]. |
| Labeling.DoubleWinResolvedByListOrder | WorkshopJupyterNotebooks/gqml_helpers.py:5-13 | A board where both players completed a line is resolved by list order: O's left column is scanned before X's middle column, so the label is O wins. |
| Splitting.Range | WorkshopJupyterNotebooks/gqml_helpers.py:21 | The initial index set holds exactly the indices 0 .. len(labels) - 1. |
| Splitting.Remove | WorkshopJupyterNotebooks/gqml_helpers.py:23 | `a.remove(x)` is defined only when x is in the set (otherwise Python raises KeyError). It takes out exactly x, and the set shrinks by one. |
| Splitting.RemainingIndices | WorkshopJupyterNotebooks/gqml_helpers.py:21-23 | Removing each distinct, in-range training index from {0..n-1} never fails. It leaves exactly the indices below n that are not training indices, and their count is n minus the number of training indices. |
| Splitting.ListOfSet | WorkshopJupyterNotebooks/gqml_helpers.py:24 | The list made from the set holds each element of the set exactly once, in some order, and nothing else. |
| Splitting.ComplementPartitions | WorkshopJupyterNotebooks/gqml_helpers.py:21-24 | The training indices followed by a distinct list of the remaining indices list every index below n exactly once. |
| Splitting.ProjectReordering | WorkshopJupyterNotebooks/gqml_helpers.py:19-26 | Projecting a list through a reordering of all its indices keeps every element, as often as it occurs. |
| Splitting.NothingLostNothingDuplicated | WorkshopJupyterNotebooks/gqml_helpers.py:19-26 | When the two index lists partition the dataset, the training pairs and the test pairs together are the dataset's (position, label) pairs, each exactly as often as it occurs. |
| Splitting.SplitData | WorkshopJupyterNotebooks/gqml_helpers.py:16-27 | Training and test outputs are the data and labels projected through the training indices and through the remaining indices, pair k on both sides coming from the same index. The two index lists partition 0..len(labels)-1, their sizes add up to len(labels), and every (position, label) pair ends up on exactly one side. |
| Circuits.QuantumCircuit.constructor | WorkshopJupyterNotebooks/gqml_helpers.py:31 | A new circuit has the given number of qubits and no instructions. |
| Circuits.QuantumCircuit.Rx | WorkshopJupyterNotebooks/gqml_helpers.py:33 | Appends one X rotation of an in-range qubit and keeps every gate on the register. |
| Circuits.QuantumCircuit.Ry | WorkshopJupyterNotebooks/gqml_helpers.py:34 | Appends one Y rotation of an in-range qubit and keeps every gate on the register. |
| Circuits.QuantumCircuit.Cry | WorkshopJupyterNotebooks/gqml_helpers.py:55 | Appends one controlled Y rotation between two distinct in-range qubits and keeps every gate on the register. |
| Circuits.QuantumCircuit.Append | WorkshopJupyterNotebooks/gqml_helpers.py:78-83 | Appends a sub-circuit on the same qubits as one instruction holding its instructions, and keeps every gate on the register. |
| Blocks.GroupsOnBoard | WorkshopJupyterNotebooks/gqml_helpers.py:32-64 | Every qubit of the corner and edge groups and of the control pairs is below 9, and no pair controls its own target. The inner pairs send each edge to the centre, and the down pairs send the centre to each corner. |
| Blocks.MakeC | WorkshopJupyterNotebooks/gqml_helpers.py:30-35 | make_c builds a fresh 9-qubit circuit of an X then a Y rotation on each corner, in the order 0, 2, 6, 8. |
| Blocks.MakeE | WorkshopJupyterNotebooks/gqml_helpers.py:37-42 | make_e builds a fresh 9-qubit circuit of an X then a Y rotation on each edge, in the order 1, 3, 5, 7. |
| Blocks.MakeM | WorkshopJupyterNotebooks/gqml_helpers.py:44-48 | make_m builds a fresh 9-qubit circuit of an X then a Y rotation on the centre. |
| Blocks.MakeO | WorkshopJupyterNotebooks/gqml_helpers.py:52-56 | make_o builds a fresh 9-qubit circuit of one controlled rotation per outer-ring pair, in list order. |
| Blocks.MakeInn | WorkshopJupyterNotebooks/gqml_helpers.py:57-61 | make_inn builds a fresh 9-qubit circuit in which each edge, in order, controls a rotation of the centre. |
| Blocks.MakeD | WorkshopJupyterNotebooks/gqml_helpers.py:62-66 | make_d builds a fresh 9-qubit circuit in which the centre controls a rotation of each corner, in order. |
| Blocks.RotationsAt | WorkshopJupyterNotebooks/gqml_helpers.py:32-34 | A rotation block has two gates per qubit: gate 2k is the X rotation of the k-th qubit and gate 2k+1 its Y rotation. |
| Blocks.ControlledAt | WorkshopJupyterNotebooks/gqml_helpers.py:54-55 | A controlled block has one gate per pair: gate k rotates the target of pair k under the control of pair k. |
| Blocks.RotationsTouchExactly | WorkshopJupyterNotebooks/gqml_helpers.py:32-34 | A rotation block touches exactly the qubits it is given and has no controlled rotation. |
| Blocks.SingleQubitBlocksTouchTheirGroup | WorkshopJupyterNotebooks/gqml_helpers.py:30-48 | make_c touches exactly {0,2,6,8}, make_e exactly {1,3,5,7} and make_m exactly {4}; none of them has a controlled rotation. |
| Blocks.ControlledPairsExactly | WorkshopJupyterNotebooks/gqml_helpers.py:54-55 | The (control, target) pairs of a controlled block are exactly the pairs it was given. |
| Blocks.ControlledTouches | WorkshopJupyterNotebooks/gqml_helpers.py:54-55 | A controlled block touches exactly the controls and targets of its pairs. |
| Blocks.OuterPairsAreAdjacency | WorkshopJupyterNotebooks/gqml_helpers.py:54 | The outer-ring pairs are exactly the (corner, edge) pairs whose cells share a side of the grid. |
| Blocks.OuterRingIsCornerEdgeAdjacency | WorkshopJupyterNotebooks/gqml_helpers.py:52-56 | Every controlled rotation of make_o goes from a corner to an edge next to it, and every such pair has one. The block touches every qubit except the centre. |
| Blocks.CenterNeighbours | WorkshopJupyterNotebooks/gqml_helpers.py:59-65 | Among cells 0..8, the cells sharing a side with the centre are the edges, and the cells diagonally next to it are the corners. |
| Blocks.InnerBlockEdgesToCenter | WorkshopJupyterNotebooks/gqml_helpers.py:57-61 | The controlled rotations of make_inn are exactly edge to centre, one per edge. The edges are the cells sharing a side with the centre, and the block touches exactly {1,3,4,5,7}. |
| Blocks.DownBlockCenterToCorners | WorkshopJupyterNotebooks/gqml_helpers.py:62-66 | The controlled rotations of make_d are exactly centre to corner, one per corner. The corners are the cells diagonally next to the centre, and the block touches exactly {0,2,4,6,8}. |
| FullCircuit.AppendEncoding | WorkshopJupyterNotebooks/gqml_helpers.py:75-76 | The encoding loop appends nine X rotations, cell j's encoding angle on qubit j, in order 0..8. |
| FullCircuit.AppendRepetition | WorkshopJupyterNotebooks/gqml_helpers.py:78-83 | One pass of the inner loop appends blocks c, e, m, d, o, inn in that order. They take weights t, t+1 (c), t+2, t+3 (e), t+4, t+5 (m), t+6 (d), t+7 (o) and t+8 (inn). |
| FullCircuit.AppendRepetitions | WorkshopJupyterNotebooks/gqml_helpers.py:77-84 | The repetition loop appends p repetitions, each starting 9 weights after the previous one (the counter advances by 9 per repetition). |
| FullCircuit.LayerBound | WorkshopJupyterNotebooks/gqml_helpers.py:71-84 | Layer i, entered with the counter at 9*p*i, uses exactly the weights 9*p*i .. 9*p*(i+1)-1, so the counter ends the layer at 9*p*(i+1). All of them are below 9*p*l, so no parameter is read out of bounds. |
| FullCircuit.MakeFullCircuit | WorkshopJupyterNotebooks/gqml_helpers.py:70-85 | make_full_circuit returns a fresh 9-qubit, well-formed circuit whose instruction list is l layers: each is the nine encoding rotations, then p repetitions of the six blocks with consecutive weights. The counter is 9*p*i at the start of layer i, hence 9*p*l at the end. |
| FullCircuit.LayersLength | WorkshopJupyterNotebooks/gqml_helpers.py:74-83 | The circuit has l*(9 + 6p) top-level instructions: 9 encoding rotations and 6 blocks per repetition in each layer. |
| FullCircuit.LayerAt | WorkshopJupyterNotebooks/gqml_helpers.py:74-83 | Layer i of the circuit is the 9 encoding rotations followed by the p repetitions whose weights start at 9*p*i. |
| FullCircuit.RepetitionsSplit | WorkshopJupyterNotebooks/gqml_helpers.py:77-84 | Repetition j of a layer, whose weights start at base + 9j, sits between the repetitions before and after it, with blocks c, e, m, d, o, inn in that order. |
| FullCircuit.LayersOnBoard | WorkshopJupyterNotebooks/gqml_helpers.py:70-85 | Every gate of the full circuit, blocks expanded, acts on qubits 0..8, and no controlled rotation targets its own control. |
| FullCircuit.EncodingSlots | WorkshopJupyterNotebooks/gqml_helpers.py:75-76 | The encoding rotations use no weight parameter. |
| FullCircuit.BlockSlot | WorkshopJupyterNotebooks/gqml_helpers.py:78-83 | Block k of a repetition starting at weight t uses exactly the weights t+Start(k) .. t+Start(k+1)-1: two each for c, e and m, and one each for d, o and inn. |
| FullCircuit.RepetitionIncreasing | WorkshopJupyterNotebooks/gqml_helpers.py:78-83 | Within a repetition, every weight of an earlier block is below every weight of a later one. |
| FullCircuit.RepetitionUses | WorkshopJupyterNotebooks/gqml_helpers.py:78-84 | A repetition starting at t uses exactly the weights t .. t+8. |
| FullCircuit.RepetitionsWeights | WorkshopJupyterNotebooks/gqml_helpers.py:77-84 | r repetitions starting at base use exactly the weights base .. base+9r-1, in increasing order from block to block. |
| FullCircuit.LayersWeights | WorkshopJupyterNotebooks/gqml_helpers.py:71-84 | The full circuit uses exactly the weight indices below 9*p*l, and its instructions take them in increasing order. So each index belongs to exactly one block, and no block shares a weight with another. |

## Left out

- `measure_z_mid`, `measure_z_corners` and `measure_z_edges` (WorkshopJupyterNotebooks/gqml_helpers.py:89-110) are not modelled. They call Qiskit's `Estimator` and `SparsePauliOp` and return floating-point expectation values.
- `score` (WorkshopJupyterNotebooks/gqml_helpers.py:113-122) is not modelled. It depends on parameter binding, the estimator and a floating-point argmax. It divides by `len(test_pos)` and fails when there is no test example.
- Angle values are not modelled: the encoding angle `2*pi/3 * x_j` is named `Encoded(j)`, and the weight `theta_i` is named `Weight(i)`. The meaning of the rotations (quantum simulation) is out of scope too. Angles are floating point in the source.
- MakeFullCircuit: reading `data_param_dict[f'x_j']` raises `KeyError` when a key is missing; this is not modelled, because the encoding angle is symbolic.
- MakeFullCircuit: Qiskit's own ordering of `Parameter` objects when they are bound is not modelled. The weights are named by their position in the `thetas` list.
- SplitData: the random draw `np.random.choice` and the float computation `int(train_ratio*len(labels))` (WorkshopJupyterNotebooks/gqml_helpers.py:17-18) are not modelled. The training indices are an input, required to be distinct and below `len(labels)`, as a draw without replacement guarantees.
- SplitData: it requires `len(labels) <= len(data)`. With a shorter `data` list the source raises `IndexError` when a projected index is past its end; that error path is not modelled.
- SplitData: the iteration order of `list(a)` over a Python set is unspecified. `ListOfSet` picks an arbitrary order, so the test-side properties are stated as set and multiset facts.
- WhoWon: board cells are integers. A board holding floats or other Python values is not modelled.
- Python's `list.append` and Qiskit's circuit internals, such as register objects and instruction contexts, are modelled only as the instruction list of `QuantumCircuit`.
