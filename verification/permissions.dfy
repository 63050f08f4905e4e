/**
 * The host server's permission service, seen as an oracle: a lookup either
 * answers or fails (the service throws), and a failed lookup never grants.
 */
module Permissions {
  import opened Members

  datatype PermissionAnswer = Granted | NotGranted | LookupFailed

  type PermissionOracle = (Uuid, string) -> PermissionAnswer

  /** `hasPermission`: the oracle's answer, with a failed lookup read as "not held". */
  predicate HasPermission(oracle: PermissionOracle, player: Uuid, permission: string)
    ensures HasPermission(oracle, player, permission) <==> oracle(player, permission) == Granted
    ensures oracle(player, permission) == LookupFailed ==> !HasPermission(oracle, player, permission)
  {
    match oracle(player, permission)
    case Granted => true
    case NotGranted => false
    case LookupFailed => false
  }
}
