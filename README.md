# Layered circuit builder of the Cirq QNN script

This project models the circuit-construction core of the quantum neural network
script `Cirq/Test1.py`:

- `CircuitLayerBuilder` holds a fixed sequence of data qubits and one readout
  qubit. `add_layer(circuit, gate, prefix)` appends to a caller-owned circuit,
  in data-qubit order, one operation `gate(data_qubits[i], readout) ** Symbol(prefix-i)`
  per data qubit.
- `create_quantum_model(num_layers)` takes the data qubits from a 4x4 grid
  (`cirq.GridQubit.rect(4, 4)`) and puts the readout at (-1, -1). For each
  layer k = 1..num_layers it appends a ZZ layer with prefix `zz1k` and then an
  XX layer with prefix `xxk`. It returns the circuit and the observable Z on
  the readout.

Files (one module each):

- `decimal.dfy` (`Decimal`): `str(n)` for non-negative integers as `NatToString`,
  and its inverse `ParseNat`. The round trips in both directions make the
  rendering a bijection onto canonical digit strings.
- `symbols.dfy` (`Symbols`): the exponent naming scheme `prefix-i`, a parser that
  splits a name at its last `-`, and injectivity of the scheme for any prefix.
- `circuit.dfy` (`Circuits`): qubits, gate kinds, operations and the observable.
  The mutable `Circuit` class is an append-only list of operations. `Layer` is
  the specification of one `add_layer` call. `CircuitLayerBuilder` is a class
  whose `AddLayer` method is a loop over the data qubits, proved against `Layer`.
- `quantum_model.dfy` (`QuantumModel`): the grid as `Rect`, the prefix scheme
  `LayerPrefix`, and the whole model as `ModelOps`. The imperative
  `CreateQuantumModel` is proved to build exactly `ModelOps(numLayers)`. Lemmas
  state where every operation sits, the block structure, which qubits every
  operation couples, and that all symbols are pairwise distinct.
- `scenarios.dfy` (`Scenarios`): concrete instances, with the literal names and
  qubits spelled out.

## Model

| member | source | states |
|---|---|---|
| Decimal.NatToStringCanonical | Cirq/Test1.py:29 | `str(i)` of a non-negative integer has at least one digit, only digits, and no leading zero unless it is "0"; in particular it contains no '-' |
| Decimal.ParseOfToString | Cirq/Test1.py:29 | parsing `str(n)` as a decimal number gives back n |
| Decimal.ToStringOfParse | Cirq/Test1.py:29 | every canonical digit string is `str` of the number it denotes |
| Decimal.NatToStringInjective | Cirq/Test1.py:29 | two indices render to the same string iff they are equal |
| Symbols.ParseSymbolName | Cirq/Test1.py:29 | splitting the name `prefix-i` at its last '-' recovers exactly (prefix, i), whatever the prefix contains |
| Symbols.SymbolNameOfParse | Cirq/Test1.py:29 | conversely, every string that parses as a name is the name of its parsed prefix and index |
| Symbols.SymbolNameInjective | Cirq/Test1.py:29 | `prefix1-i1` equals `prefix2-i2` iff the prefixes and the indices are equal |
| Circuits.Circuit.constructor | Cirq/Test1.py:36 | a new circuit holds no operations |
| Circuits.Circuit.Append | Cirq/Test1.py:30 | appending adds the operation at the end and keeps every earlier operation |
| Circuits.LayerAt | Cirq/Test1.py:28-30 | one layer has exactly one operation per data qubit; the i-th uses the given gate on (`data_qubits[i]`, readout) with exponent `prefix-i`, indices starting at 0 |
| Circuits.LayerSymbolsDistinct | Cirq/Test1.py:28-29 | the symbols of one `add_layer` call are pairwise distinct, for any prefix |
| Circuits.SamePrefixCollides | Cirq/Test1.py:27-29 | two calls with the same prefix reuse the same symbol at every index, whatever the gates; the builder does not detect this |
| Circuits.DistinctPrefixesDisjoint | Cirq/Test1.py:28-29 | calls with different prefixes never share a symbol |
| Circuits.CircuitLayerBuilder.constructor | Cirq/Test1.py:23-25 | the builder stores the given data qubits and readout; both are fixed for the builder's lifetime |
| Circuits.CircuitLayerBuilder.AddLayer | Cirq/Test1.py:27-30 | modifies only the circuit. The new contents are the old contents followed by `Layer(...)`: exactly one operation per data qubit is added, the old operations are untouched, and the operation at old length + i is `gate(data_qubits[i], readout)` named `prefix-i`. With no data qubits the circuit is unchanged |
| QuantumModel.RowAt | Cirq/Test1.py:34 | row r of the grid has `cols` qubits (r, 0), (r, 1), ... in column order |
| QuantumModel.RectLength | Cirq/Test1.py:34 | `rect(rows, cols)` has rows * cols qubits |
| QuantumModel.RectBounds | Cirq/Test1.py:34 | every qubit of `rect(rows, cols)` has 0 <= row < rows and 0 <= col < cols |
| QuantumModel.RectAt | Cirq/Test1.py:34 | qubit (r, c) sits right after the r full rows before it, in row-major order |
| QuantumModel.RectMembers | Cirq/Test1.py:34 | a qubit is in `rect(rows, cols)` iff it lies within the bounds |
| QuantumModel.RectSorted | Cirq/Test1.py:34 | the grid is strictly increasing in row-major order, so it has no repeated qubit |
| QuantumModel.DataQubitsDistinct | Cirq/Test1.py:34-35 | the 4x4 grid has 16 pairwise distinct qubits, and the readout (-1, -1) is not among them |
| QuantumModel.LayerPrefixInjective | Cirq/Test1.py:43-44 | the prefixes `zz1k` and `xxk` coincide for two (gate, layer) pairs iff the gates and the layer numbers are equal |
| QuantumModel.LastLayer | Cirq/Test1.py:42-44 | the model with n layers is the model with n - 1 layers, then 16 ZZ operations, then 16 XX operations |
| QuantumModel.ModelLength | Cirq/Test1.py:42-44 | the model has 32 operations per layer, and none for a non-positive layer count (an empty `range`) |
| QuantumModel.Decompose | Cirq/Test1.py:42-44 | every position of the model belongs to one layer k in 1..n, one gate and one data-qubit index below 16 |
| QuantumModel.PositionInjective | Cirq/Test1.py:42-44 | different (layer, gate, qubit index) triples occupy different positions |
| QuantumModel.EarlierLayers | Cirq/Test1.py:42-44 | adding a layer leaves every operation of the earlier layers at its position |
| QuantumModel.EarlierSlice | Cirq/Test1.py:42-44 | adding a layer leaves every slice of the earlier layers as it was |
| QuantumModel.LastLayerAt | Cirq/Test1.py:42-44 | in the last layer, the ZZ block comes right after the earlier layers and the XX block follows it; each block holds the operations of its `add_layer` call in order |
| QuantumModel.ModelAt | Cirq/Test1.py:42-44 | the operation of layer k, gate g and data qubit i sits at 32(k-1) + (0 for ZZ, 16 for XX) + i. It couples grid qubit i to the readout with gate g, and its exponent is `LayerPrefix(g, k)-i` |
| QuantumModel.ModelLayerAt | Cirq/Test1.py:43-44 | the same with the names spelled out: "zz1" + str(k) + "-" + str(i) at 32(k-1) + i, and "xx" + str(k) + "-" + str(i) at 32(k-1) + 16 + i |
| QuantumModel.LastBlock | Cirq/Test1.py:42-44 | the 16-operation slices of the last layer are exactly the layers that its two `add_layer` calls append |
| QuantumModel.EarlierBlock | Cirq/Test1.py:42-44 | adding a layer leaves the blocks of the earlier layers as they were |
| QuantumModel.ModelBlock | Cirq/Test1.py:42-44 | the 16-operation slice of layer k for a gate is exactly the layer that `add_layer` appends with that gate and prefix |
| QuantumModel.ModelBlocks | Cirq/Test1.py:42-44 | the model is 2n blocks of 16: for each layer k, its ZZ block at 32(k-1) with prefix `zz1k`, then its XX block with prefix `xxk` |
| QuantumModel.ModelQubits | Cirq/Test1.py:34-35 | every operation couples a grid data qubit to the readout, two different qubits |
| QuantumModel.ModelSymbolsDistinct | Cirq/Test1.py:43-44 | no two operations of the model share a symbol, within one layer or across layers |
| QuantumModel.ModelWellFormed | Cirq/Test1.py:42-44 | for every layer count: 32 operations per layer, all symbols pairwise distinct, and every operation acts on a data qubit and the readout, which differ |
| QuantumModel.CreateQuantumModel | Cirq/Test1.py:32-46 | returns a fresh circuit holding exactly `ModelOps(numLayers)`, built by one builder over the 4x4 grid. Hence it has 32 * numLayers operations, pairwise distinct symbols, and two different qubits in every operation. The observable is Z on the readout (-1, -1) |
| Scenarios.FourQubitLayer | Cirq/Test1.py:27-30 | one ZZ layer over four qubits with prefix "zz1" is the four operations "zz1-0" .. "zz1-3", in qubit order |
| Scenarios.IndicesRendered | Cirq/Test1.py:29 | `str` renders 0, 1 and 15 as "0", "1" and "15" |
| Scenarios.FirstLayerNames | Cirq/Test1.py:43-44 | layer 1 names its end operations "zz11-0", "zz11-15", "xx1-0" and "xx1-15" |
| Scenarios.CornerQubits | Cirq/Test1.py:34 | the grid starts at (0, 0) and ends at (3, 3) |
| Scenarios.FirstOperation | Cirq/Test1.py:42-43 | any model with a layer opens with ZZ on (0, 0) and the readout, exponent "zz11-0" |
| Scenarios.LastZZOfFirstLayer | Cirq/Test1.py:42-43 | operation 15 is ZZ on (3, 3), exponent "zz11-15" |
| Scenarios.FirstXXOfFirstLayer | Cirq/Test1.py:42-44 | operation 16 is XX on (0, 0), exponent "xx1-0" |
| Scenarios.LastXXOfFirstLayer | Cirq/Test1.py:42-44 | operation 31 is XX on (3, 3), exponent "xx1-15" |

## Left out

- `hinge_accuracy` (Cirq/Test1.py:14-19): tensor operations over floating point.
- CSV loading, MinMax scaling and the train/test split (Cirq/Test1.py:52-64): file I/O and library numerics.
- Printing the circuit and the readout (Cirq/Test1.py:69-70) and the trainable weights (Cirq/Test1.py:96): output only.
- The TensorFlow Quantum conversion, the PQC layer, and Keras compile and fit (Cirq/Test1.py:72-93): these are external simulation, automatic differentiation and floating-point optimisation.
- Plotting (Cirq/Test1.py:100-114): user interface.
- The unused `DataSet` import (Cirq/Test1.py:11).
- Gate semantics: `gate(q, readout) ** Symbol(name)` is kept as the record (gate kind, data qubit, readout qubit, name). The unitaries and the sympy expression are not modelled, and a symbol is identified by its name string.
- Moment packing: `cirq.Circuit.append` places operations into moments. The model keeps the circuit as the flat list of operations in append order.
- `cirq.GridQubit.rect` is modelled for a grid anchored at (0, 0), the only way the script calls it; the optional top and left offsets are not modelled.
- CreateQuantumModel: takes the layer count explicitly, so the Python default `num_layers=1` is not modelled. A negative count behaves like `range` of it: no layers.
- Circuits.CircuitLayerBuilder.AddLayer: a data qubit equal to the readout is not modelled. Cirq raises `ValueError` when `gate(q, readout)` repeats a qubit, so `add_layer` stops at the first such index and keeps the operations it appended before it. The model always appends the whole layer. The only caller never reaches that error, because `create_quantum_model` places the readout at (-1, -1), outside the grid (QuantumModel.DataQubitsDistinct, QuantumModel.ModelQubits).
- Circuits.CircuitLayerBuilder.AddLayer: its contract does not restate that the builder's data qubits and readout stay unchanged. The model declares them `const`, so no method can change them.
- The gate is modelled as the closed choice {ZZ, XX}; passing any other callable, which Python would accept, is not modelled.
