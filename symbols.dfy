/**
 The naming scheme of the circuit's trainable parameters: `add_layer` names the
 exponent of its i-th operation `prefix + '-' + str(i)`. The training framework
 binds weights to these names, so the scheme is effectively a wire format; this
 module gives its parser and proves that the scheme is injective.
 */
module Symbols {
  import opened Decimal

  datatype Option<T> = None | Some(value: T)

  /** A symbol name taken apart: the layer prefix and the data-qubit index. */
  datatype SymbolParts = SymbolParts(prefix: string, index: nat)

  /** The name `add_layer` gives the exponent of its `index`-th operation. */
  function SymbolName(prefix: string, index: nat): (name: string) {
    prefix + "-" + NatToString(index)
  }

  /** Position of the last '-' in `s`, or -1 when there is none. */
  function LastDash(s: string): (k: int)
    ensures -1 <= k < |s|
    ensures k >= 0 ==> s[k] == '-'
    ensures forall j :: k < j < |s| ==> s[j] != '-'
  {
    if |s| == 0 then -1
    else if s[|s| - 1] == '-' then |s| - 1
    else LastDash(s[..|s| - 1])
  }

  /** Splits a name at its last '-' into a prefix and a canonical decimal index. */
  function ParseSymbol(s: string): (r: Option<SymbolParts>) {
    var k := LastDash(s);
    if k < 0 then None
    else if IsCanonical(s[k + 1..]) then Some(SymbolParts(s[..k], ParseNat(s[k + 1..])))
    else None
  }

  /** Every name the builder produces parses back to its prefix and index, whatever
      the prefix contains: the index digits never contain '-'. */
  lemma ParseSymbolName(prefix: string, index: nat)
    ensures ParseSymbol(SymbolName(prefix, index)) == Some(SymbolParts(prefix, index))
  {
    var digits := NatToString(index);
    NatToStringCanonical(index);
    var s := SymbolName(prefix, index);
    assert s[|prefix|] == '-';
    forall j | |prefix| < j < |s| ensures s[j] != '-' {
      assert s[j] == digits[j - |prefix| - 1];
    }
    assert LastDash(s) == |prefix|;
    assert s[..|prefix|] == prefix && s[|prefix| + 1..] == digits;
    ParseOfToString(index);
  }

  /** Conversely, every string that parses is exactly the name of its parts. */
  lemma SymbolNameOfParse(s: string)
    requires ParseSymbol(s).Some?
    ensures SymbolName(ParseSymbol(s).value.prefix, ParseSymbol(s).value.index) == s
  {
    var k := LastDash(s);
    ToStringOfParse(s[k + 1..]);
    assert s == s[..k] + "-" + s[k + 1..];
  }

  /** Two names coincide exactly when both prefix and index coincide. */
  lemma SymbolNameInjective(p1: string, i1: nat, p2: string, i2: nat)
    ensures SymbolName(p1, i1) == SymbolName(p2, i2) <==> p1 == p2 && i1 == i2
  {
    ParseSymbolName(p1, i1);
    ParseSymbolName(p2, i2);
  }
}
