/**
 * The optimization history the optimizer hands back, and the two
 * artifacts derived from it step by step: the trajectory and the final
 * geometry.
 */
module History {
  import opened Wrappers

  /** A Cartesian 3-vector. */
  datatype Vec = Vec(x: real, y: real, z: real)

  /** An ASE `Atoms` object: chemical symbols, positions and the periodic cell. */
  datatype Atoms = Atoms(symbols: seq<string>, positions: seq<Vec>, cell: seq<Vec>)

  /**
   * One completed optimization step. Of every force and torque vector only
   * its Euclidean norm is used by the session, so the step keeps the norms.
   */
  datatype Step = Step(
    energy: real,
    structure: Atoms,
    forcesOnAtoms: seq<real>,
    forcesRaw: seq<real>,
    forcesAllowed: seq<real>,
    torquesRaw: seq<real>,
    torquesAllowed: seq<real>)

  /** One trajectory frame: the step's atoms with the step's energy. */
  datatype Frame = Frame(atoms: Atoms, energy: real)

  /** The trajectory file's frames: one per step, in history order. */
  function Trajectory(h: seq<Step>): (t: seq<Frame>)
    ensures |t| == |h|
    ensures forall i :: 0 <= i < |h| ==> t[i] == Frame(h[i].structure, h[i].energy)
  {
    if h == [] then [] else Trajectory(h[..|h| - 1]) + [Frame(h[|h| - 1].structure, h[|h| - 1].energy)]
  }

  /** The final geometry is the structure of the last step; an empty history has none. */
  function FinalGeometry(h: seq<Step>): (g: Option<Atoms>)
    ensures g.Some? <==> h != []
    ensures g.Some? ==> g.value == h[|h| - 1].structure
  {
    if h == [] then None else Some(h[|h| - 1].structure)
  }

  /** A longer history keeps the earlier frames and adds one per new step. */
  lemma {:induction false} TrajectoryExtends(h: seq<Step>, more: seq<Step>)
    ensures Trajectory(h + more) == Trajectory(h) + Trajectory(more)
    decreases |more|
  {
    if more != [] {
      var n := |more|;
      assert (h + more)[..|h + more| - 1] == h + more[..n - 1];
      TrajectoryExtends(h, more[..n - 1]);
    } else {
      assert h + more == h;
    }
  }
}
