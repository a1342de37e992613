# MPM background-grid bookkeeping, modelled in Dafny

This project models the bookkeeping that the explicit Material Point Method
solver keeps on its background grid. It covers two classes.

- `mpm::NodeMpm` (`node_mpm.dfy`, class `Node.NodeMpm`). A node holds:
  - the soil mass and the dof-sized momentum, external-force, pressure-force
    and internal-force accumulators, which particles add to during a step
    (internal force is subtracted);
  - the stored velocity and acceleration;
  - the constraint lists;
  - the sets of elements that contain the node and of nodes connected to it.
- `mpm::ElementMpm` (`element_mpm.dfy`, class `Element.ElementMpm`). An element holds:
  - its fixed array of node handles;
  - its centre and per-axis lengths;
  - the list of particles found inside it during the current step.

`vectors.dfy` (module `Vectors`) gives the dof-sized `bounded_vector` arithmetic over exact reals.
It also defines the ordered sums of contributions and the lemmas about them.
`mpm_items.dfy` (module `MpmItems`) makes node, element and particle pointers
opaque ids.

Each node accumulator carries a ghost history: the value it had when the
history started and the list of contributions made since. `NodeMpm.Valid()`
requires every accumulator to equal its start value plus the sum of its contributions.
For the internal force it is the start value minus that sum.
Every `assign*` method keeps this invariant, so "after any sequence of calls,
the accumulator is the start value plus the sum of the contributions" is a
proved fact, not an assumption. The getters state it as their postcondition.
Field-level `modifies` frames (`this`massSoil`, ...) show that each
`assign*` method changes one accumulator and leaves the other fields alone.

Constraint records follow the header's comments. A general constraint is a
direction in {0,1,2}. A friction constraint is a direction and a sign in
{-1,1}. A sloped friction constraint is an angle and a sign. `NodeMpm.Shape()`
requires every stored record to be well formed.

## Model

| member | source | states |
|---|---|---|
| `Vectors.Add` | Implicit/cartesian/src/NodeMpm.hpp:95-107 | vector `+=`: the result has the operands' length and each component is the sum of the matching components |
| `Vectors.Sub` | Implicit/cartesian/src/NodeMpm.hpp:110-112 | vector `-=`: the result has the operands' length and each component is the difference of the matching components |
| `Vectors.SumAppend` | Implicit/cartesian/src/NodeMpm.hpp:90-92 | one more mass contribution adds exactly that contribution to the running sum |
| `Vectors.SumVecAppend` | Implicit/cartesian/src/NodeMpm.hpp:95-112 | one more dof-vector contribution adds exactly that vector to the running vector sum |
| `Vectors.SumVecAt` | Implicit/cartesian/src/NodeMpm.hpp:95-112 | component i of the accumulated vector is the sum of the i-th components of all contributions |
| `Vectors.SumVecNonNegative` | Implicit/cartesian/src/NodeMpm.hpp:110-112 | contributions that are non-negative in every component sum to a vector that is non-negative in every component |
| `Node.NodeMpm.constructor` | Implicit/cartesian/src/NodeMpm.hpp:67 | a node with the given id and coordinates, empty element and node sets, empty constraint lists, every vector of length dof, empty contribution histories |
| `Node.NodeMpm.AssignSoilMass` | Implicit/cartesian/src/NodeMpm.hpp:90-92 | the lumped mass becomes its old value plus `nMass`; the contribution is recorded; nothing but the mass changes |
| `Node.NodeMpm.AssignSoilMomentum` | Implicit/cartesian/src/NodeMpm.hpp:95-97 | momentum component i becomes old + `nMomentum[i]`, length stays dof; only the momentum changes |
| `Node.NodeMpm.AssignExternalForce` | Implicit/cartesian/src/NodeMpm.hpp:100-102 | external force component i becomes old + `nExtForce[i]`, length stays dof; only the external force changes |
| `Node.NodeMpm.AssignPressureForce` | Implicit/cartesian/src/NodeMpm.hpp:105-107 | pressure force component i becomes old + `nPressureForce[i]`, length stays dof; only the pressure force changes |
| `Node.NodeMpm.AssignInternalForce` | Implicit/cartesian/src/NodeMpm.hpp:110-112 | internal force component i becomes old − `nIntForce[i]` (subtracted, not added), length stays dof; only the internal force changes |
| `Node.InternalForceNotRaised` | Implicit/cartesian/src/NodeMpm.hpp:110-112 | after any sequence of non-negative internal-force contributions, no component of the internal force is above its start value |
| `Node.MomentumLeavesOthers` | Implicit/cartesian/src/NodeMpm.hpp:95-97 | after a momentum contribution, the mass, velocity, acceleration, external, pressure and internal forces read back unchanged |
| `Node.NodeMpm.GiveSoilVelocity` | Implicit/cartesian/src/NodeMpm.hpp:128-130 | returns the stored velocity, a dof-vector; as a function it changes no state |
| `Node.NodeMpm.GiveSoilAcceleration` | Implicit/cartesian/src/NodeMpm.hpp:133-135 | returns the stored acceleration, a dof-vector; changes no state |
| `Node.NodeMpm.GiveLumpedMassAtNodes` | Implicit/cartesian/src/NodeMpm.hpp:138-140 | the mass read back is the start mass plus the sum of all mass contributions since |
| `Node.NodeMpm.GivePressureTermAtNodes` | Implicit/cartesian/src/NodeMpm.hpp:143-145 | the pressure force read back is a dof-vector equal to the start value plus the sum of all pressure contributions |
| `Node.NodeMpm.GiveExtForceTermAtNodes` | Implicit/cartesian/src/NodeMpm.hpp:148-150 | the external force read back is a dof-vector equal to the start value plus the sum of all external-force contributions |
| `Node.NodeMpm.AddElement` | Implicit/cartesian/src/NodeMpm.hpp:183-190 | the element set read back is the old set with `ePtr` inserted |
| `Node.NodeMpm.AddNode` | Implicit/cartesian/src/NodeMpm.hpp:194-200 | the node set read back is the old set with `nPtr` inserted |
| `Node.AddElementTwice` | Implicit/cartesian/src/NodeMpm.hpp:183-185 | inserting the same element twice gives the same set as inserting it once |
| `Node.AddNodeTwice` | Implicit/cartesian/src/NodeMpm.hpp:194-196 | inserting the same node twice gives the same set as inserting it once |
| `Element.ElementMpm.constructor` | Implicit/cartesian/src/ElementMpm.hpp:71-73 | a new element has an empty particle list; node handles, centre and lengths are the given ones |
| `Element.ElementMpm.GiveCenterCoordOfElement` | Implicit/cartesian/src/ElementMpm.hpp:83-85 | returns the stored centre, a dim-vector, without changing state |
| `Element.ElementMpm.GiveLengthsOfElement` | Implicit/cartesian/src/ElementMpm.hpp:88-90 | returns the stored per-axis lengths, a dim-vector, without changing state |
| `Element.ElementMpm.AddParticle` | Implicit/cartesian/src/ElementMpm.hpp:93-100 | the particle list becomes the old list followed by `pPtr`: one longer, same multiset plus one `pPtr`; node array, centre and lengths are outside its frame |
| `Element.AddParticleTwice` | Implicit/cartesian/src/ElementMpm.hpp:93-95 | adding the same particle twice leaves two more copies of it in the list (no deduplication) |
| `Element.ElementMpm.GiveNodes` | Implicit/cartesian/src/ElementMpm.hpp:105-110 | the copy has the node count as length and holds `nodes_[i]` at index i, in order; it equals the whole node array |
| `Element.ElementMpm.GiveNode` | Implicit/cartesian/src/ElementMpm.hpp:113-115 | for an index below the node count, returns one of the element's node handles (GiveNodes places GiveNode(i) at index i) |
| `Element.ElementMpm.Initialise` | Implicit/cartesian/src/ElementMpm.hpp:129-131 | the particle list is empty afterwards; only the particle list changes |

## Left out

- Nodal kinematics: `computeSoilVelocity`, `computeSoilVelocityMixedMesh`, `computeSoilAccelerationAndVelocity`, `computeSoilAccelerationAndVelocityMixedMesh` and `sign_`. They are only declared in the header. Their bodies are in `NodeMpm.ipp`, which is not part of this model, and they are floating-point physics.
- Constraint enforcement: `applyGeneralConstraints_`, `applyFrictionConstraints_` and their slope variants. These are declared only, with bodies in `NodeMpm.ipp`.
- The `store*Constraint*` methods are declared only. The model keeps the constraint lists and their record well-formedness. No method adds to them.
- `updateNodalVelocity` and the node's `initialise` are declared only. Nothing is assumed about what they do. In particular, the accumulators are not assumed to be zeroed.
- `Node.NodeMpm.constructor` gives no promised value to the accumulators, the velocity or the acceleration, because the source constructor leaves them unset. Its body puts zeros there only so that the fields have a value.
- The node constructor taking an id alone is declared only and is not modelled.
- `computeCtrCoordAndLength`, `giveNodeLocation` and `isNodeIncluded` on the element are declared only, with bodies in `ElementMpm.ipp`, which is not part of this model. The element constructor therefore receives the centre and lengths as parameters.
- `printCheckNode` and `printCheckElem` write to the console.
- The node's `particleSet_`, `addParticle` and `giveParticles` are marked as not in use. The getter is also declared to return an element set from a particle set, which does not type-check as written.
- The base classes `corlib::NodeBasic` and `corlib::ElementBasic` are reduced to the fields the core uses: the node's id and coordinates, and the element's node array. Their other members are not part of this model.
- Pointers are opaque ids. The model does not cover aliasing through the `NodePtr&` that `giveNode` returns, or the reference to the particle vector that `giveParticles` returns.
- `double` rounding: all accumulation is exact arithmetic over `real`.
- The material model, the stress update and the time-stepping driver are not in the two headers. They are not part of this model.
