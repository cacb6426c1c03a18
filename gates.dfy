/** The gates the two circuit builders append, recorded as a log instead of a
    circuit-library object. Rotation angles are not recorded: the controlled
    rotations all use the configured fixed angle and each RY names the index of
    the free parameter it is bound to. */
module Gates {

  datatype Gate =
    | H(q: nat)
    | CX(control: nat, target: nat)
    | CRY(control: nat, target: nat)
    | CZ(a: nat, b: nat)
    | Swap(a: nat, b: nat)
    | RY(param: nat, q: nat)

  /** Every qubit the gate touches is below `n`. */
  predicate InRange(g: Gate, n: nat)
  {
    match g
    case H(q) => q < n
    case CX(c, t) => c < n && t < n
    case CRY(c, t) => c < n && t < n
    case CZ(a, b) => a < n && b < n
    case Swap(a, b) => a < n && b < n
    case RY(_, q) => q < n
  }

  predicate AllInRange(gs: seq<Gate>, n: nat)
  {
    forall i :: 0 <= i < |gs| ==> InRange(gs[i], n)
  }

  /** Every controlled gate acts on two different qubits. */
  predicate ControlDiffersFromTarget(g: Gate)
  {
    match g
    case CX(c, t) => c != t
    case CRY(c, t) => c != t
    case CZ(a, b) => a != b
    case _ => true
  }

  /** The parameter an RY gate uses is below `m`; other gates use none. */
  predicate ParamInRange(g: Gate, m: nat)
  {
    g.RY? ==> g.param < m
  }

  /** Every gate of `gs` is below `n`, controlled gates have two distinct
      qubits, and rotations use a parameter below `m`. */
  predicate WellFormed(gs: seq<Gate>, n: nat, m: nat)
  {
    forall i :: 0 <= i < |gs| ==> InRange(gs[i], n) && ControlDiffersFromTarget(gs[i]) && ParamInRange(gs[i], m)
  }

  lemma WellFormedConcat(a: seq<Gate>, b: seq<Gate>, n: nat, m: nat)
    requires WellFormed(a, n, m) && WellFormed(b, n, m)
    ensures WellFormed(a + b, n, m)
  {
    forall i | 0 <= i < |a + b|
      ensures InRange((a + b)[i], n) && ControlDiffersFromTarget((a + b)[i]) && ParamInRange((a + b)[i], m)
    {
      if i < |a| {
        assert (a + b)[i] == a[i];
      } else {
        assert (a + b)[i] == b[i - |a|];
      }
    }
  }
}
