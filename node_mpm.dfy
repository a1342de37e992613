/**
 * A background-grid node of the explicit MPM solver (`mpm::NodeMpm`): the
 * per-step accumulators that particles contribute to, the stored kinematics,
 * the constraint lists, and the sets of neighbouring elements and nodes.
 *
 * The accumulators are kept exactly (over `real`). Each one carries a ghost
 * history: the value it had when the history started and the list of
 * contributions made since, so that the object invariant can say what the
 * accumulator holds after any sequence of calls.
 */
module Node {
  import opened MpmItems
  import opened Vectors

  /** A spatial direction index, 0, 1 or 2. */
  predicate IsDirection(d: nat)
  {
    d <= 2
  }

  /** The sign of a boundary normal, -1 or 1. */
  predicate IsSign(s: int)
  {
    s == -1 || s == 1
  }

  /** A friction constraint on an axis-aligned boundary: normal direction and its sign. */
  datatype FrictionConstraint = FrictionConstraint(normDirection: nat, signNormDirection: int)
  {
    predicate Valid()
    {
      IsDirection(normDirection) && IsSign(signNormDirection)
    }
  }

  /** A friction constraint on a sloped boundary: slope angle and the sign of its normal. */
  datatype FrictionConstraintSlope = FrictionConstraintSlope(slopeAngle: real, signNormDirection: int)
  {
    predicate Valid()
    {
      IsSign(signNormDirection)
    }
  }

  /** Internal force is never raised by a non-negative contribution: it is subtracted. */
  lemma InternalForceNotRaised(base: seq<real>, contributions: seq<seq<real>>, dof: nat)
    requires |base| == dof && AllOfLength(contributions, dof)
    requires forall k, i :: 0 <= k < |contributions| && 0 <= i < dof ==> contributions[k][i] >= 0.0
    ensures forall i :: 0 <= i < dof ==> Sub(base, SumVec(contributions, dof))[i] <= base[i]
  {
    SumVecNonNegative(contributions, dof);
  }

  class NodeMpm {
    const id: nat
    const dim: nat
    /** Degrees of freedom per node: the length of every kinematic and force vector. */
    const dof: nat
    const coord: seq<real>

    var genConstraints: seq<nat>
    var fricConstraints: seq<FrictionConstraint>
    var genConstraintsSlope: seq<real>
    var fricConstraintsSlope: seq<FrictionConstraintSlope>

    var massSoil: real
    var velocitySoil: seq<real>
    var momentumSoil: seq<real>
    var extForceSoil: seq<real>
    var presForceSoil: seq<real>
    var intForceSoil: seq<real>
    var accelerationSoil: seq<real>

    var elementSet: set<ElementId>
    var nodeSet: set<NodeId>

    // Contribution histories of the accumulators.
    ghost var massBase: real
    ghost var massContributions: seq<real>
    ghost var momentumBase: seq<real>
    ghost var momentumContributions: seq<seq<real>>
    ghost var extForceBase: seq<real>
    ghost var extForceContributions: seq<seq<real>>
    ghost var presForceBase: seq<real>
    ghost var presForceContributions: seq<seq<real>>
    ghost var intForceBase: seq<real>
    ghost var intForceContributions: seq<seq<real>>

    /** Every vector is `dof` long and every constraint record is well formed. */
    ghost predicate Shape()
      reads this
    {
      && |coord| == dim
      && |velocitySoil| == dof && |accelerationSoil| == dof
      && |momentumSoil| == dof && |extForceSoil| == dof
      && |presForceSoil| == dof && |intForceSoil| == dof
      && (forall k :: 0 <= k < |genConstraints| ==> IsDirection(genConstraints[k]))
      && (forall k :: 0 <= k < |fricConstraints| ==> fricConstraints[k].Valid())
      && (forall k :: 0 <= k < |fricConstraintsSlope| ==> fricConstraintsSlope[k].Valid())
    }

    /** Each accumulator equals its starting value plus (internal force: minus) its contributions. */
    ghost predicate Valid()
      reads this
    {
      && Shape()
      && massSoil == massBase + Sum(massContributions)
      && |momentumBase| == dof && AllOfLength(momentumContributions, dof)
      && momentumSoil == Add(momentumBase, SumVec(momentumContributions, dof))
      && |extForceBase| == dof && AllOfLength(extForceContributions, dof)
      && extForceSoil == Add(extForceBase, SumVec(extForceContributions, dof))
      && |presForceBase| == dof && AllOfLength(presForceContributions, dof)
      && presForceSoil == Add(presForceBase, SumVec(presForceContributions, dof))
      && |intForceBase| == dof && AllOfLength(intForceContributions, dof)
      && intForceSoil == Sub(intForceBase, SumVec(intForceContributions, dof))
    }

    /**
     * A node with an id and coordinates. The neighbour sets and constraint
     * lists start empty; the accumulators get no promised value (their reset
     * belongs to `initialise`, which is not part of this model), only length `dof`.
     */
    constructor (id: nat, cv: seq<real>, dim: nat, dof: nat)
      requires |cv| == dim
      ensures Valid()
      ensures this.id == id && this.coord == cv && this.dim == dim && this.dof == dof
      ensures elementSet == {} && nodeSet == {}
      ensures genConstraints == [] && fricConstraints == []
      ensures genConstraintsSlope == [] && fricConstraintsSlope == []
      ensures massContributions == [] && momentumContributions == []
      ensures extForceContributions == [] && presForceContributions == []
      ensures intForceContributions == []
    {
      this.id, this.coord, this.dim, this.dof := id, cv, dim, dof;
      genConstraints, fricConstraints := [], [];
      genConstraintsSlope, fricConstraintsSlope := [], [];
      elementSet, nodeSet := {}, {};
      var z := Zero(dof);
      massSoil := 0.0;
      velocitySoil, accelerationSoil := z, z;
      momentumSoil, extForceSoil, presForceSoil, intForceSoil := z, z, z, z;
      massBase, massContributions := massSoil, [];
      momentumBase, momentumContributions := z, [];
      extForceBase, extForceContributions := z, [];
      presForceBase, presForceContributions := z, [];
      intForceBase, intForceContributions := z, [];
      assert Add(z, Zero(dof)) == z;
      assert Sub(z, Zero(dof)) == z;
    }

    /** Adds one particle's mass contribution. */
    method AssignSoilMass(nMass: real)
      requires Valid()
      modifies this`massSoil, this`massContributions
      ensures Valid()
      ensures GiveLumpedMassAtNodes() == old(GiveLumpedMassAtNodes()) + nMass
      ensures massContributions == old(massContributions) + [nMass]
    {
      SumAppend(massContributions, nMass);
      massSoil := massSoil + nMass;
      massContributions := massContributions + [nMass];
    }

    /** Adds one particle's momentum contribution, component by component. */
    method AssignSoilMomentum(nMomentum: seq<real>)
      requires Valid() && |nMomentum| == dof
      modifies this`momentumSoil, this`momentumContributions
      ensures Valid()
      ensures |momentumSoil| == dof
      ensures forall i :: 0 <= i < dof ==> momentumSoil[i] == old(momentumSoil[i]) + nMomentum[i]
      ensures momentumContributions == old(momentumContributions) + [nMomentum]
    {
      SumVecAppend(momentumContributions, dof, nMomentum);
      AddAssociative(momentumBase, SumVec(momentumContributions, dof), nMomentum);
      momentumSoil := Add(momentumSoil, nMomentum);
      momentumContributions := momentumContributions + [nMomentum];
    }

    /** Adds one particle's external (body) force contribution, component by component. */
    method AssignExternalForce(nExtForce: seq<real>)
      requires Valid() && |nExtForce| == dof
      modifies this`extForceSoil, this`extForceContributions
      ensures Valid()
      ensures |GiveExtForceTermAtNodes()| == dof
      ensures forall i :: 0 <= i < dof ==>
        GiveExtForceTermAtNodes()[i] == old(GiveExtForceTermAtNodes()[i]) + nExtForce[i]
      ensures extForceContributions == old(extForceContributions) + [nExtForce]
    {
      SumVecAppend(extForceContributions, dof, nExtForce);
      AddAssociative(extForceBase, SumVec(extForceContributions, dof), nExtForce);
      extForceSoil := Add(extForceSoil, nExtForce);
      extForceContributions := extForceContributions + [nExtForce];
    }

    /** Adds one pressure force contribution, component by component. */
    method AssignPressureForce(nPressureForce: seq<real>)
      requires Valid() && |nPressureForce| == dof
      modifies this`presForceSoil, this`presForceContributions
      ensures Valid()
      ensures |GivePressureTermAtNodes()| == dof
      ensures forall i :: 0 <= i < dof ==>
        GivePressureTermAtNodes()[i] == old(GivePressureTermAtNodes()[i]) + nPressureForce[i]
      ensures presForceContributions == old(presForceContributions) + [nPressureForce]
    {
      SumVecAppend(presForceContributions, dof, nPressureForce);
      AddAssociative(presForceBase, SumVec(presForceContributions, dof), nPressureForce);
      presForceSoil := Add(presForceSoil, nPressureForce);
      presForceContributions := presForceContributions + [nPressureForce];
    }

    /** Takes one particle's internal force contribution: it is SUBTRACTED. */
    method AssignInternalForce(nIntForce: seq<real>)
      requires Valid() && |nIntForce| == dof
      modifies this`intForceSoil, this`intForceContributions
      ensures Valid()
      ensures |intForceSoil| == dof
      ensures forall i :: 0 <= i < dof ==> intForceSoil[i] == old(intForceSoil[i]) - nIntForce[i]
      ensures intForceContributions == old(intForceContributions) + [nIntForce]
    {
      SumVecAppend(intForceContributions, dof, nIntForce);
      SubSub(intForceBase, SumVec(intForceContributions, dof), nIntForce);
      intForceSoil := Sub(intForceSoil, nIntForce);
      intForceContributions := intForceContributions + [nIntForce];
    }

    /** The stored soil velocity. */
    function GiveSoilVelocity(): (r: seq<real>)
      reads this
      requires Valid()
      ensures |r| == dof
    {
      velocitySoil
    }

    /** The stored soil acceleration. */
    function GiveSoilAcceleration(): (r: seq<real>)
      reads this
      requires Valid()
      ensures |r| == dof
    {
      accelerationSoil
    }

    /** The lumped nodal mass: the starting mass plus every contribution since. */
    function GiveLumpedMassAtNodes(): (r: real)
      reads this
      requires Valid()
      ensures r == massBase + Sum(massContributions)
    {
      massSoil
    }

    /** The pressure force: the starting value plus every contribution since. */
    function GivePressureTermAtNodes(): (r: seq<real>)
      reads this
      requires Valid()
      ensures |r| == dof
      ensures r == Add(presForceBase, SumVec(presForceContributions, dof))
    {
      presForceSoil
    }

    /** The external force: the starting value plus every contribution since. */
    function GiveExtForceTermAtNodes(): (r: seq<real>)
      reads this
      requires Valid()
      ensures |r| == dof
      ensures r == Add(extForceBase, SumVec(extForceContributions, dof))
    {
      extForceSoil
    }

    /** Records an element that contains this node. */
    method AddElement(ePtr: ElementId)
      modifies this`elementSet
      ensures GiveElements() == old(GiveElements()) + {ePtr}
    {
      elementSet := elementSet + {ePtr};
    }

    /** The elements recorded so far. */
    function GiveElements(): set<ElementId>
      reads this
    {
      elementSet
    }

    /** Records a connected node. */
    method AddNode(nPtr: NodeId)
      modifies this`nodeSet
      ensures GiveNodeSet() == old(GiveNodeSet()) + {nPtr}
    {
      nodeSet := nodeSet + {nPtr};
    }

    /** The connected nodes recorded so far. */
    function GiveNodeSet(): set<NodeId>
      reads this
    {
      nodeSet
    }
  }

  /** Recording the same element twice leaves the node as recording it once. */
  method AddElementTwice(node: NodeMpm, e: ElementId)
    modifies node`elementSet
    ensures node.GiveElements() == old(node.GiveElements()) + {e}
  {
    node.AddElement(e);
    node.AddElement(e);
  }

  /** Recording the same neighbour node twice leaves the node as recording it once. */
  method AddNodeTwice(node: NodeMpm, n: NodeId)
    modifies node`nodeSet
    ensures node.GiveNodeSet() == old(node.GiveNodeSet()) + {n}
  {
    node.AddNode(n);
    node.AddNode(n);
  }

  /**
   * A momentum contribution changes the momentum and nothing else: mass,
   * velocity, acceleration and the other force accumulators keep their values.
   */
  method MomentumLeavesOthers(node: NodeMpm, v: seq<real>)
    requires node.Valid() && |v| == node.dof
    modifies node
    ensures node.Valid()
    ensures node.GiveLumpedMassAtNodes() == old(node.GiveLumpedMassAtNodes())
    ensures node.GiveSoilVelocity() == old(node.GiveSoilVelocity())
    ensures node.GiveSoilAcceleration() == old(node.GiveSoilAcceleration())
    ensures node.GiveExtForceTermAtNodes() == old(node.GiveExtForceTermAtNodes())
    ensures node.GivePressureTermAtNodes() == old(node.GivePressureTermAtNodes())
    ensures node.intForceSoil == old(node.intForceSoil)
  {
    node.AssignSoilMomentum(v);
  }
}
