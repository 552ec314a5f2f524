/** Names that the proxy engine reserves: its routing groups and built-in policies. */
module EngineNames {
  const ROUTING_GROUPS := {"AUTO", "PROXY", "GLOBAL", "PROBE"}
  const BUILTIN_POLICIES := {"DIRECT", "REJECT", "REJECT-DROP", "PASS", "COMPATIBLE"}

  /** Every name that is a group or a policy and never a selectable node. */
  const PSEUDO_NODES := ROUTING_GROUPS + BUILTIN_POLICIES
}
