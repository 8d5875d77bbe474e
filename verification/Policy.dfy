/** The host's configuration, its validation on load, and policy resolution. */
module Policy {
  import opened Wrappers
  import opened SelectorParser

  datatype IdentityPolicy = IdentityPolicy(selector: string, ttlMinutes: u32)
  datatype VmEntry = VmEntry(vmCid: u32, ip: Option<string>, identities: map<string, IdentityPolicy>)
  datatype HostConfig = HostConfig(serverPort: u32, peerPort: u32, vms: map<string, VmEntry>)

  datatype ConfigError =
    | ServerPortTooHigh(port: u32)
    | SelectorError(vmName: string, workload: string, reason: ParseError)

  /** `ttl_minutes * 60` in 32-bit arithmetic that wraps. */
  function ValiditySeconds(ttlMinutes: u32): u32 {
    ttlMinutes * 60 % TWO_TO_THE_32
  }

  const MAX_TTL_MINUTES := 71_582_788

  /** The product is the intended number of seconds exactly up to this many minutes. */
  lemma ValidityExactIff(ttlMinutes: u32)
    ensures ValiditySeconds(ttlMinutes) == ttlMinutes * 60 <==> ttlMinutes <= 71582788
  {}

  predicate SelectorsParse(vm: VmEntry) {
    forall name :: name in vm.identities ==> Parse(vm.identities[name].selector).Ok?
  }

  /** What loading a configuration guarantees. */
  predicate Validated(cfg: HostConfig) {
    cfg.serverPort < 1000 && forall vmName :: vmName in cfg.vms ==> SelectorsParse(cfg.vms[vmName])
  }

  /** The checks of `from_file` on the decoded record; both maps are visited in an arbitrary order. */
  method Load(cfg: HostConfig) returns (r: Result<HostConfig, ConfigError>)
    ensures r.Ok? <==> Validated(cfg)
    ensures r.Ok? ==> r.value == cfg && cfg.serverPort < 1000
    ensures cfg.serverPort >= 1000 ==> r == Err(ServerPortTooHigh(cfg.serverPort))
    ensures r.Err? ==> match r.error
                       case ServerPortTooHigh(port) => port == cfg.serverPort >= 1000
                       case SelectorError(vmName, workload, reason) =>
                         && vmName in cfg.vms && workload in cfg.vms[vmName].identities
                         && Parse(cfg.vms[vmName].identities[workload].selector) == Err(reason)
  {
    hide Parse;
    if cfg.serverPort >= 1000 {
      return Err(ServerPortTooHigh(cfg.serverPort));
    }
    var vmNames := cfg.vms.Keys;
    while vmNames != {}
      invariant vmNames <= cfg.vms.Keys
      invariant forall v :: v in cfg.vms && v !in vmNames ==> SelectorsParse(cfg.vms[v])
    {
      var vmName :| vmName in vmNames;
      var vm := cfg.vms[vmName];
      var names := vm.identities.Keys;
      while names != {}
        invariant names <= vm.identities.Keys
        invariant forall n :: n in vm.identities && n !in names ==> Parse(vm.identities[n].selector).Ok?
      {
        var name :| name in names;
        var parsed := ParseSelector(vm.identities[name].selector);
        if parsed.Err? {
          return Err(SelectorError(vmName, name, parsed.error));
        }
        names := names - {name};
      }
      vmNames := vmNames - {vmName};
    }
    return Ok(cfg);
  }

  datatype PolicyDecision = PolicyDecision(vmName: string, vmCid: u32, ip: Option<string>, validitySeconds: u32)

  predicate Registered(cfg: HostConfig, vmName: string, identity: string) {
    vmName in cfg.vms && identity in cfg.vms[vmName].identities
  }

  function Resolve(cfg: HostConfig, vmName: string, identity: string): (r: Option<PolicyDecision>)
    ensures r.Some? <==> Registered(cfg, vmName, identity)
    ensures r.Some? ==>
              && r.value.vmName == vmName && r.value.vmCid == cfg.vms[vmName].vmCid && r.value.ip == cfg.vms[vmName].ip
              && r.value.validitySeconds == ValiditySeconds(cfg.vms[vmName].identities[identity].ttlMinutes)
  {
    if vmName !in cfg.vms then None
    else
      var vm := cfg.vms[vmName];
      if identity !in vm.identities then None
      else Some(PolicyDecision(vmName, vm.vmCid, vm.ip, ValiditySeconds(vm.identities[identity].ttlMinutes)))
  }
}
