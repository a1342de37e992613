/**
 * The handles that the MPM template bundle (`MpmItems`) passes around.
 * Nodes, elements and particles refer to one another only through these
 * non-owning handles, so the model treats each one as an opaque id.
 */
module MpmItems {
  /** Handle of a background-grid node (`NodePtr`). */
  type NodeId = nat

  /** Handle of a background-grid element (`ElementPtr`). */
  type ElementId = nat

  /** Handle of a soil material point (`ParticleSoilPtr`). */
  type ParticleId = nat
}
