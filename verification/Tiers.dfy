/** Who can answer a request (telemetry/tier.go). */
module Tiers {

  /** A model, the semantic cache, or the fixed denial. */
  datatype Tier = Primary | Fallback | Cache | Denied
}
