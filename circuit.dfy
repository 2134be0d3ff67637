/**
 The circuit and the layer builder of the QNN script. A circuit is a flat,
 append-only list of operations; each operation couples one data qubit to the
 readout qubit with a two-qubit gate raised to a named symbolic exponent.
 `CircuitLayerBuilder.AddLayer` appends one such operation per data qubit. A
 data qubit equal to the readout, for which Cirq raises an error, is not
 modelled: the whole layer is appended.
 */
module Circuits {
  import opened Symbols

  /** A grid qubit, identified by its (row, column) coordinate. */
  datatype Qubit = GridQubit(row: int, col: int)

  /** The two-qubit gate templates the model uses. */
  datatype GateKind = ZZ | XX

  /** `gate(data, readout) ** Symbol(symbol)`. */
  datatype Operation = Operation(gate: GateKind, data: Qubit, readout: Qubit, symbol: string)

  /** A single-qubit Pauli observable; the model only measures Z. */
  datatype Observable = PauliZ(target: Qubit)

  /** A mutable circuit. Moment packing is not modelled: the operations are kept
      in the order they were appended. */
  class Circuit {
    var ops: seq<Operation>

    constructor ()
      ensures ops == []
    {
      ops := [];
    }

    method Append(op: Operation)
      modifies this
      ensures ops == old(ops) + [op]
    {
      ops := ops + [op];
    }
  }

  /** The operations one `add_layer` call appends, in the order it appends them:
      the layer over all but the last data qubit, then the last one. */
  function Layer(dataQubits: seq<Qubit>, readout: Qubit, gate: GateKind, prefix: string): (ops: seq<Operation>) {
    if |dataQubits| == 0 then []
    else
      var i := |dataQubits| - 1;
      Layer(dataQubits[..i], readout, gate, prefix) + [Operation(gate, dataQubits[i], readout, SymbolName(prefix, i))]
  }

  /** One operation per data qubit, in data-qubit order; the i-th couples
      `dataQubits[i]` to the readout with the given gate, exponent `prefix-i`. */
  lemma {:induction false} LayerAt(dataQubits: seq<Qubit>, readout: Qubit, gate: GateKind, prefix: string)
    ensures |Layer(dataQubits, readout, gate, prefix)| == |dataQubits|
    ensures forall i :: 0 <= i < |dataQubits| ==>
      Layer(dataQubits, readout, gate, prefix)[i] == Operation(gate, dataQubits[i], readout, SymbolName(prefix, i))
  {
    if |dataQubits| > 0 {
      var n := |dataQubits| - 1;
      LayerAt(dataQubits[..n], readout, gate, prefix);
    }
  }

  /** The symbols of one layer are pairwise distinct, whatever the prefix. */
  lemma LayerSymbolsDistinct(dataQubits: seq<Qubit>, readout: Qubit, gate: GateKind, prefix: string, i: nat, j: nat)
    requires i < j < |dataQubits|
    ensures |Layer(dataQubits, readout, gate, prefix)| == |dataQubits|
    ensures Layer(dataQubits, readout, gate, prefix)[i].symbol != Layer(dataQubits, readout, gate, prefix)[j].symbol
  {
    LayerAt(dataQubits, readout, gate, prefix);
    SymbolNameInjective(prefix, i, prefix, j);
  }

  /** Two layers built with the same prefix reuse the same symbol at every index,
      whatever their gates: the builder does not detect such a collision. */
  lemma SamePrefixCollides(dataQubits: seq<Qubit>, readout: Qubit, g1: GateKind, g2: GateKind, prefix: string, i: nat)
    requires i < |dataQubits|
    ensures |Layer(dataQubits, readout, g1, prefix)| == |Layer(dataQubits, readout, g2, prefix)| == |dataQubits|
    ensures Layer(dataQubits, readout, g1, prefix)[i].symbol == Layer(dataQubits, readout, g2, prefix)[i].symbol
  {
    LayerAt(dataQubits, readout, g1, prefix);
    LayerAt(dataQubits, readout, g2, prefix);
  }

  /** Layers built with different prefixes share no symbol. */
  lemma DistinctPrefixesDisjoint(dataQubits: seq<Qubit>, readout: Qubit, g1: GateKind, g2: GateKind,
                                 p1: string, p2: string, i: nat, j: nat)
    requires p1 != p2 && i < |dataQubits| && j < |dataQubits|
    ensures |Layer(dataQubits, readout, g1, p1)| == |Layer(dataQubits, readout, g2, p2)| == |dataQubits|
    ensures Layer(dataQubits, readout, g1, p1)[i].symbol != Layer(dataQubits, readout, g2, p2)[j].symbol
  {
    LayerAt(dataQubits, readout, g1, p1);
    LayerAt(dataQubits, readout, g2, p2);
    SymbolNameInjective(p1, i, p2, j);
  }

  /** Couples every data qubit to a fixed readout qubit; both are set once. */
  class CircuitLayerBuilder {
    const dataQubits: seq<Qubit>
    const readout: Qubit

    constructor (dataQubits: seq<Qubit>, readout: Qubit)
      ensures this.dataQubits == dataQubits && this.readout == readout
    {
      this.dataQubits := dataQubits;
      this.readout := readout;
    }

    /** Appends `gate(dataQubits[i], readout) ** (prefix-i)` for every i in order.
        Only the circuit changes; the operations it held are kept as they were. */
    method AddLayer(circuit: Circuit, gate: GateKind, prefix: string)
      modifies circuit
      ensures circuit.ops == old(circuit.ops) + Layer(dataQubits, readout, gate, prefix)
      ensures |circuit.ops| == old(|circuit.ops|) + |dataQubits|
      ensures circuit.ops[..old(|circuit.ops|)] == old(circuit.ops)
      ensures forall i :: 0 <= i < |dataQubits| ==>
        circuit.ops[old(|circuit.ops|) + i] == Operation(gate, dataQubits[i], readout, SymbolName(prefix, i))
      ensures |dataQubits| == 0 ==> circuit.ops == old(circuit.ops)
    {
      for i := 0 to |dataQubits|
        invariant circuit.ops == old(circuit.ops) + Layer(dataQubits[..i], readout, gate, prefix)
      {
        assert dataQubits[..i + 1][..i] == dataQubits[..i];
        circuit.Append(Operation(gate, dataQubits[i], readout, SymbolName(prefix, i)));
      }
      assert dataQubits[..|dataQubits|] == dataQubits;
      LayerAt(dataQubits, readout, gate, prefix);
    }
  }
}
