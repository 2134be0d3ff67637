/**
 `create_quantum_model`: a 4x4 grid of data qubits, a readout qubit at
 (-1, -1), and for every layer k = 1..num_layers a ZZ layer with prefix
 "zz1k" followed by an XX layer with prefix "xxk". The model's operations are
 given by `ModelOps`; the lemmas below establish its shape (2n blocks of 16),
 the operation at every position, that every operation acts on two different
 qubits, and that no two operations share a symbol.
 */
module QuantumModel {
  import opened Decimal
  import opened Symbols
  import opened Circuits

  /** Row `r` of a grid, columns 0..cols-1 in order. */
  function Row(r: int, cols: nat): (row: seq<Qubit>) {
    if cols == 0 then [] else Row(r, cols - 1) + [GridQubit(r, cols - 1)]
  }

  /** `cirq.GridQubit.rect(rows, cols)`: the grid in row-major order. */
  function Rect(rows: nat, cols: nat): (grid: seq<Qubit>) {
    if rows == 0 then [] else Rect(rows - 1, cols) + Row(rows - 1, cols)
  }

  /** The data register is a 4x4 grid. */
  const GridRows: nat := 4
  const GridCols: nat := 4

  /** The 16 data qubits of the model. */
  const DataQubits: seq<Qubit> := Rect(GridRows, GridCols)

  /** The readout qubit, outside the data grid. */
  const Readout: Qubit := GridQubit(-1, -1)

  /** Row-major order on grid coordinates. */
  predicate RowMajorBefore(a: Qubit, b: Qubit) {
    a.row < b.row || (a.row == b.row && a.col < b.col)
  }

  lemma {:induction false} RowAt(r: int, cols: nat)
    ensures |Row(r, cols)| == cols
    ensures forall c :: 0 <= c < cols ==> Row(r, cols)[c] == GridQubit(r, c)
  {
    if cols > 0 {
      RowAt(r, cols - 1);
    }
  }

  lemma {:induction false} RectLength(rows: nat, cols: nat)
    ensures |Rect(rows, cols)| == rows * cols
  {
    if rows > 0 {
      RectLength(rows - 1, cols);
      RowAt(rows - 1, cols);
      assert (rows - 1) * cols + cols == rows * cols;
    }
  }

  /** Every qubit of the grid lies within its bounds. */
  lemma {:induction false} RectBounds(rows: nat, cols: nat)
    ensures forall i :: 0 <= i < |Rect(rows, cols)| ==>
      0 <= Rect(rows, cols)[i].row < rows && 0 <= Rect(rows, cols)[i].col < cols
  {
    if rows > 0 {
      var top: seq<Qubit>, last: seq<Qubit> := Rect(rows - 1, cols), Row(rows - 1, cols);
      RectBounds(rows - 1, cols);
      RowAt(rows - 1, cols);
      forall i | 0 <= i < |top + last|
        ensures 0 <= (top + last)[i].row < rows && 0 <= (top + last)[i].col < cols
      {
        if i < |top| {
          assert (top + last)[i] == top[i];
        } else {
          assert (top + last)[i] == last[i - |top|];
        }
      }
    }
  }

  /** The qubit at (r, c) follows the r full rows before it: it sits at position
      |Rect(r, cols)| + c, that is r * cols + c by `RectLength`. */
  lemma {:induction false} RectAt(rows: nat, cols: nat, r: nat, c: nat)
    requires r < rows && c < cols
    ensures |Rect(r, cols)| + c < |Rect(rows, cols)|
    ensures Rect(rows, cols)[|Rect(r, cols)| + c] == GridQubit(r, c)
  {
    var top, last := Rect(rows - 1, cols), Row(rows - 1, cols);
    RowAt(rows - 1, cols);
    var idx := |Rect(r, cols)| + c;
    if r < rows - 1 {
      RectAt(rows - 1, cols, r, c);
      assert (top + last)[idx] == top[idx];
    } else {
      assert (top + last)[idx] == last[c];
    }
  }

  /** The grid holds exactly the qubits with 0 <= row < rows and 0 <= col < cols. */
  lemma RectMembers(rows: nat, cols: nat)
    ensures forall q :: q in Rect(rows, cols) <==> 0 <= q.row < rows && 0 <= q.col < cols
  {
    RectBounds(rows, cols);
    forall q: Qubit | 0 <= q.row < rows && 0 <= q.col < cols
      ensures q in Rect(rows, cols)
    {
      RectAt(rows, cols, q.row, q.col);
    }
  }

  /** The grid is strictly increasing in row-major order, hence free of repeats. */
  lemma {:induction false} RectSorted(rows: nat, cols: nat)
    ensures forall i, j :: 0 <= i < j < |Rect(rows, cols)| ==> RowMajorBefore(Rect(rows, cols)[i], Rect(rows, cols)[j])
  {
    if rows > 0 {
      var top, last := Rect(rows - 1, cols), Row(rows - 1, cols);
      RectSorted(rows - 1, cols);
      RectBounds(rows - 1, cols);
      RowAt(rows - 1, cols);
      forall i, j | 0 <= i < j < |top + last|
        ensures RowMajorBefore((top + last)[i], (top + last)[j])
      {
        if j < |top| {
          assert (top + last)[i] == top[i] && (top + last)[j] == top[j];
        } else if i >= |top| {
          assert (top + last)[i] == last[i - |top|] && (top + last)[j] == last[j - |top|];
        } else {
          assert (top + last)[i] == top[i];
          assert (top + last)[j] == last[j - |top|];
        }
      }
    }
  }

  /** The 16 data qubits are pairwise distinct and none of them is the readout,
      so every operation of the model acts on two different qubits. */
  lemma DataQubitsDistinct()
    ensures |DataQubits| == 16
    ensures forall i, j :: 0 <= i < j < |DataQubits| ==> DataQubits[i] != DataQubits[j]
    ensures Readout !in DataQubits
  {
    RectLength(GridRows, GridCols);
    RectMembers(GridRows, GridCols);
    RectSorted(GridRows, GridCols);
  }

  /** The symbol prefix `create_quantum_model` passes for layer k. */
  function LayerPrefix(gate: GateKind, k: nat): (prefix: string) {
    match gate
    case ZZ => "zz1" + NatToString(k)
    case XX => "xx" + NatToString(k)
  }

  /** No two (gate, layer) pairs share a prefix. */
  lemma LayerPrefixInjective(g1: GateKind, k1: nat, g2: GateKind, k2: nat)
    ensures LayerPrefix(g1, k1) == LayerPrefix(g2, k2) <==> g1 == g2 && k1 == k2
  {
    var p1, p2 := LayerPrefix(g1, k1), LayerPrefix(g2, k2);
    if g1 != g2 {
      assert p1[0] != p2[0];
    } else if p1 == p2 {
      if g1 == ZZ {
        assert p1[3..] == NatToString(k1) && p2[3..] == NatToString(k2);
        NatToStringInjective(k1, k2);
      } else {
        assert p1[2..] == NatToString(k1) && p2[2..] == NatToString(k2);
        NatToStringInjective(k1, k2);
      }
    }
  }

  /** The operations of `create_quantum_model(numLayers)`, layer by layer. */
  function ModelOps(numLayers: int): (ops: seq<Operation>)
    decreases numLayers
  {
    if numLayers <= 0 then []
    else
      ModelOps(numLayers - 1)
      + Layer(DataQubits, Readout, ZZ, LayerPrefix(ZZ, numLayers))
      + Layer(DataQubits, Readout, XX, LayerPrefix(XX, numLayers))
  }

  /** The last layer of `ModelOps(numLayers)`: 16 ZZ operations, then 16 XX ones. */
  lemma LastLayer(numLayers: nat)
    requires numLayers >= 1
    ensures |Layer(DataQubits, Readout, ZZ, LayerPrefix(ZZ, numLayers))| == 16
    ensures |Layer(DataQubits, Readout, XX, LayerPrefix(XX, numLayers))| == 16
    ensures ModelOps(numLayers) == ModelOps(numLayers - 1)
      + Layer(DataQubits, Readout, ZZ, LayerPrefix(ZZ, numLayers))
      + Layer(DataQubits, Readout, XX, LayerPrefix(XX, numLayers))
  {
    RectLength(GridRows, GridCols);
    LayerAt(DataQubits, Readout, ZZ, LayerPrefix(ZZ, numLayers));
    LayerAt(DataQubits, Readout, XX, LayerPrefix(XX, numLayers));
  }

  /** 32 operations per layer; none for a non-positive layer count. */
  lemma {:induction false} ModelLength(numLayers: int)
    ensures |ModelOps(numLayers)| == 32 * (if numLayers > 0 then numLayers else 0)
  {
    if numLayers > 0 {
      ModelLength(numLayers - 1);
      LastLayer(numLayers);
    }
  }

  /** Where layer k's operation with the given gate on data qubit i sits: the
      layers before it take 32 places each, and its ZZ block precedes its XX block. */
  function Position(k: nat, gate: GateKind, i: nat): (p: nat)
    requires k >= 1
  {
    32 * (k - 1) + (if gate == ZZ then 0 else 16) + i
  }

  /** Every position of the model is the position of some (layer, gate, qubit);
      by `PositionInjective` that triple is unique. */
  lemma Decompose(numLayers: int, j: nat) returns (k: nat, gate: GateKind, i: nat)
    requires j < |ModelOps(numLayers)|
    ensures 1 <= k <= numLayers && i < 16 && Position(k, gate, i) == j
  {
    ModelLength(numLayers);
    k := j / 32 + 1;
    var off := j % 32;
    if off < 16 {
      gate, i := ZZ, off;
    } else {
      gate, i := XX, off - 16;
    }
  }

  lemma PositionInjective(k1: nat, g1: GateKind, i1: nat, k2: nat, g2: GateKind, i2: nat)
    requires k1 >= 1 && k2 >= 1 && i1 < 16 && i2 < 16
    ensures Position(k1, g1, i1) == Position(k2, g2, i2) <==> k1 == k2 && g1 == g2 && i1 == i2
  {
  }

  /** Appending a layer keeps the operations of the earlier layers in place. */
  lemma EarlierLayers(numLayers: nat, j: nat)
    requires numLayers >= 1 && j < |ModelOps(numLayers - 1)|
    ensures j < |ModelOps(numLayers)| && ModelOps(numLayers)[j] == ModelOps(numLayers - 1)[j]
  {
    LastLayer(numLayers);
  }

  /** The last layer: its ZZ block right after the earlier layers, then its XX block. */
  lemma LastLayerAt(numLayers: nat, gate: GateKind, i: nat)
    requires numLayers >= 1 && i < 16
    ensures Position(numLayers, gate, i) < |ModelOps(numLayers)|
    ensures ModelOps(numLayers)[Position(numLayers, gate, i)]
      == Operation(gate, DataQubits[i], Readout, SymbolName(LayerPrefix(gate, numLayers), i))
  {
    ModelLength(numLayers - 1);
    LastLayer(numLayers);
    var front := ModelOps(numLayers - 1);
    var zz := Layer(DataQubits, Readout, ZZ, LayerPrefix(ZZ, numLayers));
    var xx := Layer(DataQubits, Readout, XX, LayerPrefix(XX, numLayers));
    var all := front + zz + xx;
    assert ModelOps(numLayers) == all;
    LayerAt(DataQubits, Readout, gate, LayerPrefix(gate, numLayers));
    if gate == ZZ {
      assert Position(numLayers, gate, i) == |front| + i;
      assert all[|front| + i] == zz[i];
    } else {
      assert Position(numLayers, gate, i) == |front| + 16 + i;
      assert all[|front| + 16 + i] == xx[i];
    }
  }

  /** Layer k's operation with the given gate on data qubit i couples that qubit to
      the readout, with exponent named after the layer's prefix and i. */
  lemma {:induction false} ModelAt(numLayers: int, k: nat, gate: GateKind, i: nat)
    requires 1 <= k <= numLayers && i < 16
    ensures Position(k, gate, i) < |ModelOps(numLayers)|
    ensures ModelOps(numLayers)[Position(k, gate, i)]
      == Operation(gate, DataQubits[i], Readout, SymbolName(LayerPrefix(gate, k), i))
  {
    if k < numLayers {
      ModelAt(numLayers - 1, k, gate, i);
      EarlierLayers(numLayers, Position(k, gate, i));
    } else {
      LastLayerAt(numLayers, gate, i);
    }
  }

  /** Layer k's i-th ZZ operation is named "zz1k-i" and its i-th XX operation "xxk-i";
      both couple data qubit i to the readout. */
  lemma ModelLayerAt(numLayers: nat, k: nat, i: nat)
    requires 1 <= k <= numLayers && i < 16
    ensures |ModelOps(numLayers)| == 32 * numLayers
    ensures ModelOps(numLayers)[32 * (k - 1) + i]
      == Operation(ZZ, DataQubits[i], Readout, "zz1" + NatToString(k) + "-" + NatToString(i))
    ensures ModelOps(numLayers)[32 * (k - 1) + 16 + i]
      == Operation(XX, DataQubits[i], Readout, "xx" + NatToString(k) + "-" + NatToString(i))
  {
    ModelLength(numLayers);
    assert Position(k, ZZ, i) == 32 * (k - 1) + i;
    assert Position(k, XX, i) == 32 * (k - 1) + 16 + i;
    ModelAt(numLayers, k, ZZ, i);
    ModelAt(numLayers, k, XX, i);
  }

  /** The last layer's block for `gate` is the layer `add_layer` appended last for it. */
  lemma LastBlock(numLayers: nat, gate: GateKind)
    requires numLayers >= 1
    ensures Position(numLayers, gate, 0) + 16 <= |ModelOps(numLayers)|
    ensures ModelOps(numLayers)[Position(numLayers, gate, 0)..Position(numLayers, gate, 0) + 16]
      == Layer(DataQubits, Readout, gate, LayerPrefix(gate, numLayers))
  {
    ModelLength(numLayers - 1);
    LastLayer(numLayers);
    var front := ModelOps(numLayers - 1);
    var zz := Layer(DataQubits, Readout, ZZ, LayerPrefix(ZZ, numLayers));
    var xx := Layer(DataQubits, Readout, XX, LayerPrefix(XX, numLayers));
    MiddleAndLast(front, zz, xx);
  }

  lemma MiddleAndLast(a: seq<Operation>, b: seq<Operation>, c: seq<Operation>)
    ensures (a + b + c)[|a|..|a| + |b|] == b
    ensures (a + b + c)[|a| + |b|..|a| + |b| + |c|] == c
  {
    assert (a + b + c)[|a|..] == b + c;
  }

  /** Appending a layer leaves every slice of the earlier layers as it was. */
  lemma EarlierSlice(numLayers: nat, lo: nat, hi: nat)
    requires numLayers >= 1 && lo <= hi <= |ModelOps(numLayers - 1)|
    ensures hi <= |ModelOps(numLayers)| && ModelOps(numLayers)[lo..hi] == ModelOps(numLayers - 1)[lo..hi]
  {
    LastLayer(numLayers);
    var zz := Layer(DataQubits, Readout, ZZ, LayerPrefix(ZZ, numLayers));
    var xx := Layer(DataQubits, Readout, XX, LayerPrefix(XX, numLayers));
    PrefixSlice(ModelOps(numLayers - 1), zz + xx, lo, hi);
  }

  lemma PrefixSlice(a: seq<Operation>, b: seq<Operation>, lo: nat, hi: nat)
    requires lo <= hi <= |a|
    ensures (a + b)[lo..hi] == a[lo..hi]
  {
  }

  /** Appending a layer leaves the blocks of the earlier layers as they were. */
  lemma EarlierBlock(numLayers: nat, k: nat, gate: GateKind)
    requires 1 <= k < numLayers
    ensures Position(k, gate, 0) + 16 <= |ModelOps(numLayers - 1)|
    ensures ModelOps(numLayers)[Position(k, gate, 0)..Position(k, gate, 0) + 16]
      == ModelOps(numLayers - 1)[Position(k, gate, 0)..Position(k, gate, 0) + 16]
  {
    var lo := Position(k, gate, 0);
    ModelLength(numLayers - 1);
    assert lo + 16 <= |ModelOps(numLayers - 1)|;
    EarlierSlice(numLayers, lo, lo + 16);
  }

  /** The 16 operations of one block of layer k are exactly the layer `add_layer` appends. */
  lemma {:induction false} ModelBlock(numLayers: nat, k: nat, gate: GateKind)
    requires 1 <= k <= numLayers
    ensures Position(k, gate, 0) + 16 <= |ModelOps(numLayers)|
    ensures ModelOps(numLayers)[Position(k, gate, 0)..Position(k, gate, 0) + 16]
      == Layer(DataQubits, Readout, gate, LayerPrefix(gate, k))
  {
    if k < numLayers {
      ModelBlock(numLayers - 1, k, gate);
      EarlierBlock(numLayers, k, gate);
    } else {
      LastBlock(k, gate);
    }
  }

  /** Layer k occupies positions 32(k-1) .. 32k: its ZZ block, then its XX block. */
  lemma ModelBlocks(numLayers: nat, k: nat)
    requires 1 <= k <= numLayers
    ensures |ModelOps(numLayers)| == 32 * numLayers
    ensures ModelOps(numLayers)[32 * (k - 1)..32 * (k - 1) + 16] == Layer(DataQubits, Readout, ZZ, LayerPrefix(ZZ, k))
    ensures ModelOps(numLayers)[32 * (k - 1) + 16..32 * k] == Layer(DataQubits, Readout, XX, LayerPrefix(XX, k))
  {
    ModelLength(numLayers);
    ModelBlock(numLayers, k, ZZ);
    ModelBlock(numLayers, k, XX);
  }

  /** Every operation couples a grid qubit to the readout, two different qubits. */
  lemma ModelQubits(numLayers: int, j: nat)
    requires j < |ModelOps(numLayers)|
    ensures ModelOps(numLayers)[j].readout == Readout
    ensures ModelOps(numLayers)[j].data in DataQubits
    ensures ModelOps(numLayers)[j].data != ModelOps(numLayers)[j].readout
  {
    var k, gate, i := Decompose(numLayers, j);
    ModelAt(numLayers, k, gate, i);
    DataQubitsDistinct();
  }

  /** No two operations of the model share a symbol. */
  lemma ModelSymbolsDistinct(numLayers: int, j1: nat, j2: nat)
    requires j1 < j2 < |ModelOps(numLayers)|
    ensures ModelOps(numLayers)[j1].symbol != ModelOps(numLayers)[j2].symbol
  {
    var k1, g1, i1 := Decompose(numLayers, j1);
    var k2, g2, i2 := Decompose(numLayers, j2);
    ModelAt(numLayers, k1, g1, i1);
    ModelAt(numLayers, k2, g2, i2);
    SymbolNameInjective(LayerPrefix(g1, k1), i1, LayerPrefix(g2, k2), i2);
    LayerPrefixInjective(g1, k1, g2, k2);
    PositionInjective(k1, g1, i1, k2, g2, i2);
  }

  /** The whole model: 32 operations per layer, all symbols pairwise distinct,
      and every operation couples a grid qubit to the readout. */
  lemma ModelWellFormed(numLayers: int)
    ensures |ModelOps(numLayers)| == 32 * (if numLayers > 0 then numLayers else 0)
    ensures forall i, j :: 0 <= i < j < |ModelOps(numLayers)| ==>
      ModelOps(numLayers)[i].symbol != ModelOps(numLayers)[j].symbol
    ensures forall op :: op in ModelOps(numLayers) ==>
      op.readout == Readout && op.data in DataQubits && op.data != op.readout
  {
    var ops := ModelOps(numLayers);
    ModelLength(numLayers);
    forall i, j | 0 <= i < j < |ops|
      ensures ops[i].symbol != ops[j].symbol
    {
      ModelSymbolsDistinct(numLayers, i, j);
    }
    forall op | op in ops
      ensures op.readout == Readout && op.data in DataQubits && op.data != op.readout
    {
      var j :| 0 <= j < |ops| && ops[j] == op;
      ModelQubits(numLayers, j);
    }
  }

  /** `create_quantum_model(num_layers)`: the circuit and the Z observable on the readout. */
  method CreateQuantumModel(numLayers: int) returns (circuit: Circuit, observable: Observable)
    ensures fresh(circuit)
    ensures circuit.ops == ModelOps(numLayers)
    ensures |circuit.ops| == 32 * (if numLayers > 0 then numLayers else 0)
    ensures forall i, j :: 0 <= i < j < |circuit.ops| ==> circuit.ops[i].symbol != circuit.ops[j].symbol
    ensures forall op :: op in circuit.ops ==> op.readout == Readout && op.data in DataQubits && op.data != op.readout
    ensures observable == PauliZ(Readout)
  {
    var dataQubits := Rect(4, 4);
    var readout := GridQubit(-1, -1);
    circuit := new Circuit();
    var builder := new CircuitLayerBuilder(dataQubits, readout);
    var i := 0;
    while i < numLayers
      invariant 0 <= i && (i <= numLayers || i == 0)
      invariant circuit.ops == ModelOps(i)
    {
      builder.AddLayer(circuit, ZZ, "zz1" + NatToString(i + 1));
      builder.AddLayer(circuit, XX, "xx" + NatToString(i + 1));
      i := i + 1;
    }
    observable := PauliZ(readout);
    ModelWellFormed(numLayers);
  }
}
