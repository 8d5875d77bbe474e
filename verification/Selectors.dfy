/** The selector types the server parses, sends in the handshake, and the agent matches against. */
module Selectors {
  import opened Wrappers

  datatype UnixSelector = UnixSelector(user: Option<string>, group: Option<string>, binPath: Option<string>)

  datatype SystemdSelector = SystemdSelector(unitpath: Option<string>, unitname: Option<string>)

  datatype SelectorConfig = SelectorConfig(unix: Option<UnixSelector>, systemd: Option<SystemdSelector>)

  datatype WorkloadConfig = WorkloadConfig(selector: SelectorConfig, validitySeconds: u32)
}
