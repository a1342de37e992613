/**
 * A background-grid element of the explicit MPM solver (`mpm::ElementMpm`):
 * its fixed array of node handles, its geometric descriptor (centre and
 * per-axis lengths) and the list of particles found inside it this step.
 */
module Element {
  import opened MpmItems

  class ElementMpm {
    const dim: nat
    /** The element's nodes, in local order; the array has the element's node count. */
    const nodes: array<NodeId>

    var particlesInElement: seq<ParticleId>
    var ctrECoord: seq<real>
    var eLength: seq<real>

    /** The centre and the lengths are `dim`-vectors. */
    ghost predicate Valid()
      reads this
    {
      |ctrECoord| == dim && |eLength| == dim
    }

    /**
     * A new element holds no particles. Its node handles, centre and lengths
     * are given, standing for the base-class node storage and for the geometry
     * computation, neither of which is part of this model.
     */
    constructor (dim: nat, nodeIds: seq<NodeId>, center: seq<real>, lengths: seq<real>)
      requires |center| == dim && |lengths| == dim
      ensures Valid() && fresh(nodes)
      ensures this.dim == dim && nodes[..] == nodeIds
      ensures ctrECoord == center && eLength == lengths
      ensures GiveParticles() == []
    {
      this.dim := dim;
      nodes := new NodeId[|nodeIds|](i requires 0 <= i < |nodeIds| => nodeIds[i]);
      particlesInElement := [];
      ctrECoord, eLength := center, lengths;
    }

    /** The element's centre, a `dim`-vector. */
    function GiveCenterCoordOfElement(): (r: seq<real>)
      reads this
      requires Valid()
      ensures |r| == dim
    {
      ctrECoord
    }

    /** The element's length along each axis, a `dim`-vector. */
    function GiveLengthsOfElement(): (r: seq<real>)
      reads this
      requires Valid()
      ensures |r| == dim
    {
      eLength
    }

    /** Appends a particle found inside the element; duplicates are kept. */
    method AddParticle(pPtr: ParticleId)
      modifies this`particlesInElement
      ensures GiveParticles() == old(GiveParticles()) + [pPtr]
      ensures |GiveParticles()| == |old(GiveParticles())| + 1
      ensures multiset(GiveParticles()) == multiset(old(GiveParticles())) + multiset{pPtr}
    {
      particlesInElement := particlesInElement + [pPtr];
    }

    /** The particles found inside the element, in the order they were added. */
    function GiveParticles(): seq<ParticleId>
      reads this
    {
      particlesInElement
    }

    /** A copy of the node handles, in local order. */
    method GiveNodes() returns (nVec: seq<NodeId>)
      ensures |nVec| == nodes.Length && nVec == nodes[..]
      ensures forall i :: 0 <= i < nodes.Length ==> nVec[i] == GiveNode(i)
    {
      nVec := [];
      var i := 0;
      while i < nodes.Length
        invariant 0 <= i <= nodes.Length
        invariant |nVec| == i
        invariant forall k :: 0 <= k < i ==> nVec[k] == nodes[k]
      {
        nVec := nVec + [nodes[i]];
        i := i + 1;
      }
    }

    /** The node handle at local index `ind`, which must be below the node count. */
    function GiveNode(ind: nat): (r: NodeId)
      reads nodes
      requires ind < nodes.Length
      ensures r in nodes[..]
    {
      nodes[ind]
    }

    /** Empties the particle list at the start of a step. */
    method Initialise()
      modifies this`particlesInElement
      ensures GiveParticles() == []
    {
      particlesInElement := [];
    }
  }

  /** Adding the same particle twice leaves two more copies of it in the list. */
  method AddParticleTwice(e: ElementMpm, p: ParticleId)
    modifies e`particlesInElement
    ensures Occurrences(e.GiveParticles(), p) == Occurrences(old(e.GiveParticles()), p) + 2
    ensures |e.GiveParticles()| == |old(e.GiveParticles())| + 2
  {
    e.AddParticle(p);
    e.AddParticle(p);
  }

  /** How many times `p` occurs in `ps`. */
  function Occurrences(ps: seq<ParticleId>, p: ParticleId): nat
  {
    multiset(ps)[p]
  }
}
