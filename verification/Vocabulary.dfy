/** Names that several parts agree on. */
module Vocabulary {
  const FLUXION_PREFIX := "fluxion.flux-framework.org/"
  const SCOUT_SUFFIX := "-scout"
  const QUANTUM_GATE := "quantum.braket/ready"
}
