/**
 Concrete instances of the builder: one ZZ layer over four qubits with prefix
 "zz1", and the first and last operations and names of a one-layer model.
 */
module Scenarios {
  import opened Decimal
  import opened Symbols
  import opened Circuits
  import opened QuantumModel

  /** Four data qubits, readout (-1, -1), one ZZ layer with prefix "zz1". */
  lemma FourQubitLayer()
    ensures Layer([GridQubit(0, 0), GridQubit(0, 1), GridQubit(1, 0), GridQubit(1, 1)], GridQubit(-1, -1), ZZ, "zz1")
         == [ Operation(ZZ, GridQubit(0, 0), GridQubit(-1, -1), "zz1-0"),
              Operation(ZZ, GridQubit(0, 1), GridQubit(-1, -1), "zz1-1"),
              Operation(ZZ, GridQubit(1, 0), GridQubit(-1, -1), "zz1-2"),
              Operation(ZZ, GridQubit(1, 1), GridQubit(-1, -1), "zz1-3") ]
  {
    var dq := [GridQubit(0, 0), GridQubit(0, 1), GridQubit(1, 0), GridQubit(1, 1)];
    var layer := Layer(dq, GridQubit(-1, -1), ZZ, "zz1");
    LayerAt(dq, GridQubit(-1, -1), ZZ, "zz1");
    assert SymbolName("zz1", 0) == "zz1-0" && SymbolName("zz1", 1) == "zz1-1";
    assert SymbolName("zz1", 2) == "zz1-2" && SymbolName("zz1", 3) == "zz1-3";
    assert layer[0].symbol == "zz1-0" && layer[1].symbol == "zz1-1";
    assert layer[2].symbol == "zz1-2" && layer[3].symbol == "zz1-3";
  }

  lemma IndicesRendered()
    ensures NatToString(0) == "0" && NatToString(1) == "1" && NatToString(15) == "15"
  {
    assert NatToString(15) == NatToString(1) + [DigitChar(5)];
  }

  /** The exponents at the two ends of layer 1's blocks. */
  lemma FirstLayerNames()
    ensures SymbolName(LayerPrefix(ZZ, 1), 0) == "zz11-0"
    ensures SymbolName(LayerPrefix(ZZ, 1), 15) == "zz11-15"
    ensures SymbolName(LayerPrefix(XX, 1), 0) == "xx1-0"
    ensures SymbolName(LayerPrefix(XX, 1), 15) == "xx1-15"
  {
    IndicesRendered();
  }

  lemma CornerQubits()
    ensures |DataQubits| == 16
    ensures DataQubits[0] == GridQubit(0, 0) && DataQubits[15] == GridQubit(3, 3)
  {
    RectLength(GridRows, GridCols);
    RectAt(4, 4, 0, 0);
    RectAt(4, 4, 3, 3);
    RectLength(3, 4);
  }

  /** The i-th operation of layer 1's block for `gate`, with its qubit and name
      supplied already evaluated. */
  lemma FirstLayerOp(numLayers: nat, gate: GateKind, i: nat, q: Qubit, name: string)
    requires numLayers >= 1 && i < 16
    requires q == DataQubits[i] && name == SymbolName(LayerPrefix(gate, 1), i)
    ensures Position(1, gate, i) < |ModelOps(numLayers)|
    ensures ModelOps(numLayers)[Position(1, gate, i)] == Operation(gate, q, GridQubit(-1, -1), name)
  {
    ModelAt(numLayers, 1, gate, i);
  }

  /** Every model with at least one layer opens with ZZ on qubit (0, 0), exponent "zz11-0". */
  lemma FirstOperation(numLayers: nat)
    requires numLayers >= 1
    ensures 0 < |ModelOps(numLayers)|
    ensures ModelOps(numLayers)[0] == Operation(ZZ, GridQubit(0, 0), GridQubit(-1, -1), "zz11-0")
  {
    CornerQubits();
    FirstLayerNames();
    FirstLayerOp(numLayers, ZZ, 0, GridQubit(0, 0), "zz11-0");
  }

  /** Layer 1's ZZ block ends with qubit (3, 3), exponent "zz11-15". */
  lemma LastZZOfFirstLayer(numLayers: nat)
    requires numLayers >= 1
    ensures 15 < |ModelOps(numLayers)|
    ensures ModelOps(numLayers)[15] == Operation(ZZ, GridQubit(3, 3), GridQubit(-1, -1), "zz11-15")
  {
    CornerQubits();
    FirstLayerNames();
    FirstLayerOp(numLayers, ZZ, 15, GridQubit(3, 3), "zz11-15");
  }

  /** Layer 1's XX block follows at position 16 with qubit (0, 0), exponent "xx1-0". */
  lemma FirstXXOfFirstLayer(numLayers: nat)
    requires numLayers >= 1
    ensures 16 < |ModelOps(numLayers)|
    ensures ModelOps(numLayers)[16] == Operation(XX, GridQubit(0, 0), GridQubit(-1, -1), "xx1-0")
  {
    CornerQubits();
    FirstLayerNames();
    FirstLayerOp(numLayers, XX, 0, GridQubit(0, 0), "xx1-0");
  }

  /** ... and ends at position 31 with qubit (3, 3), exponent "xx1-15". */
  lemma LastXXOfFirstLayer(numLayers: nat)
    requires numLayers >= 1
    ensures 31 < |ModelOps(numLayers)|
    ensures ModelOps(numLayers)[31] == Operation(XX, GridQubit(3, 3), GridQubit(-1, -1), "xx1-15")
  {
    CornerQubits();
    FirstLayerNames();
    FirstLayerOp(numLayers, XX, 15, GridQubit(3, 3), "xx1-15");
  }
}
