/**
 * Engine-name dispatch: the three-way split applied to the host engine and
 * to the container engine in both commands, and the container-engine default.
 */
module Engines {
  import opened Types

  const Vpp: string := "vpp"
  const OvsDpdk: string := "ovs-dpdk"

  /** Which side of the attachment an engine name was read for. */
  datatype Role = Host | Container

  /** Supported, recognised but not supported, or unknown. */
  datatype EngineKind = Supported | NotSupported | Unknown

  function Classify(name: string): (k: EngineKind)
    ensures k == Supported <==> name == Vpp
    ensures k == NotSupported <==> name == OvsDpdk
    ensures k == Unknown <==> name != Vpp && name != OvsDpdk
  {
    if name == Vpp then Supported
    else if name == OvsDpdk then NotSupported
    else Unknown
  }

  /** The engine that handles the container side. */
  function ContainerEngine(conf: NetConf): (e: string)
    ensures e == conf.containerConf.engine || e == conf.hostConf.engine
    ensures conf.containerConf.engine != "" ==> e == conf.containerConf.engine
    ensures conf.containerConf.engine == "" ==> e == conf.hostConf.engine
  {
    if conf.containerConf.engine != "" then conf.containerConf.engine
    else conf.hostConf.engine
  }

  /** The effective container engine is unset only when both names are. */
  lemma ContainerEngineUnsetOnlyIfBothUnset(conf: NetConf)
    ensures ContainerEngine(conf) == "" <==>
            conf.containerConf.engine == "" && conf.hostConf.engine == ""
  {
  }
}
