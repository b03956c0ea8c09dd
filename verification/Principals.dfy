/** Who is calling, and whether they may see or write across tenants
    (crates/cairn-api/src/auth.rs, crates/cairn-app/src/extractors.rs). */
module Principals {
  import opened Common

  datatype Principal =
    | Operator(tenant: string)
    | ServiceAccount(name: string, tenant: string)
    | SystemPrincipal

  predicate IsAdmin(p: Principal) {
    p.SystemPrincipal? || (p.ServiceAccount? && p.name == "admin")
  }

  function CallerTenant(p: Principal): Option<string> {
    if p.SystemPrincipal? then None else Some(p.tenant)
  }
}
