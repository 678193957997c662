/**
 * The two command handlers of the plugin. Each runs its collaborators in a
 * fixed order against the answers in an environment, returns at the first
 * error without undoing earlier steps, and records the calls it made.
 */
module Userspace {
  import opened Wrappers
  import opened Types
  import opened Engines
  import opened IpSelect
  import opened Plugin

  /** `cmdAdd`: attach on the host, allocate an address, attach in the container, report. */
  method CmdAdd(args: CmdArgs, env: AddEnv) returns (outcome: Outcome, ghost calls: seq<Call>)
    ensures outcome == AddSpec(args, env).outcome
    ensures calls == AddSpec(args, env).calls
  {
    calls := [];
    var result: Option<seq<IPConfig>> := None;
    var ipData := ZeroIpData;

    var loaded := LoadNetConf(env.unmarshal);
    if loaded.Failure? {
      return Err(loaded.error), calls;
    }
    var netConf := loaded.value;

    // Host side.
    match Classify(netConf.hostConf.engine) {
      case Supported =>
        calls := calls + [CniVppAddOnHost(args.containerID, ipData)];
        if env.addOnHost.Failed? {
          return Err(CollaboratorErr(HostAttach, env.addOnHost.cause)), calls;
        }
      case NotSupported =>
        return Err(UnsupportedEngine(Host, netConf.hostConf.engine)), calls;
      case Unknown =>
        return Err(UnknownEngine(Host, netConf.hostConf.engine)), calls;
    }
    ghost var afterHost := calls;

    // IPAM, when configured.
    if netConf.ipam.ipamType != "" {
      calls := calls + [IpamExecAdd(netConf.ipam.ipamType, args.stdinData)];
      if env.ipamExecAdd.Failed? {
        return Err(CollaboratorErr(IpamAllocate, env.ipamExecAdd.cause)), calls;
      }
      calls := calls + [NewResultFromResult];
      if env.newResult.Failure? {
        return Err(CollaboratorErr(IpamConvert, env.newResult.error)), calls;
      }
      var records := env.newResult.value;
      var ips := new IPConfig[|records|](i requires 0 <= i < |records| => records[i]);
      assert ips[..] == records;
      if ips.Length == 0 {
        return Err(NoAddress), calls;
      }
      ipData := SelectIpData(ips);
      ClearGateways(ips);
      result := Some(ips[..]);
    }
    assert AddIpamStage(args, netConf, env).value == Success((result, ipData));
    assert calls == afterHost + AddIpamStage(args, netConf, env).calls;

    // Container side.
    var containerEngine := ContainerEngine(netConf);
    match Classify(containerEngine) {
      case Supported =>
        calls := calls + [CniVppAddOnContainer(args.containerID, ipData)];
        if env.addOnContainer.Failed? {
          return Err(CollaboratorErr(ContainerAttach, env.addOnContainer.cause)), calls;
        }
      case NotSupported =>
        return Err(UnsupportedEngine(Container, containerEngine)), calls;
      case Unknown =>
        return Err(UnknownEngine(Container, containerEngine)), calls;
    }

    calls := calls + [PrintResult(result, netConf.cniVersion)];
    if env.printResult.Failed? {
      return Err(CollaboratorErr(Report, env.printResult.cause)), calls;
    }
    return Ok(result), calls;
  }

  /** `cmdDel`: detach on the host and in the container, release the address, delete the link. */
  method CmdDel(args: CmdArgs, env: DelEnv) returns (outcome: Outcome, ghost calls: seq<Call>)
    ensures outcome == DelSpec(args, env).outcome
    ensures calls == DelSpec(args, env).calls
  {
    calls := [];

    var loaded := LoadNetConf(env.unmarshal);
    if loaded.Failure? {
      return Err(loaded.error), calls;
    }
    var netConf := loaded.value;

    // Host side.
    match Classify(netConf.hostConf.engine) {
      case Supported =>
        calls := calls + [CniVppDelFromHost(args.containerID)];
        if env.delFromHost.Failed? {
          return Err(CollaboratorErr(HostDetach, env.delFromHost.cause)), calls;
        }
      case NotSupported =>
        return Err(UnsupportedEngine(Host, netConf.hostConf.engine)), calls;
      case Unknown =>
        return Err(UnknownEngine(Host, netConf.hostConf.engine)), calls;
    }

    // Container side.
    var containerEngine := ContainerEngine(netConf);
    match Classify(containerEngine) {
      case Supported =>
        calls := calls + [CniVppDelFromContainer(args.containerID)];
        if env.delFromContainer.Failed? {
          return Err(CollaboratorErr(ContainerDetach, env.delFromContainer.cause)), calls;
        }
      case NotSupported =>
        return Err(UnsupportedEngine(Container, containerEngine)), calls;
      case Unknown =>
        return Err(UnknownEngine(Container, containerEngine)), calls;
    }

    // IPAM release, when configured.
    if netConf.ipam.ipamType != "" {
      calls := calls + [IpamExecDel(netConf.ipam.ipamType, args.stdinData)];
      if env.ipamExecDel.Failed? {
        return Err(CollaboratorErr(IpamRelease, env.ipamExecDel.cause)), calls;
      }
    }

    // Namespace cleanup.
    if args.netns == "" {
      return Ok(None), calls;
    }
    calls := calls + [WithNetNSPath(args.netns)];
    if env.withNetNSPath.Failed? {
      return Err(CollaboratorErr(NetnsEnter, env.withNetNSPath.cause)), calls;
    }
    calls := calls + [DelLinkByNameAddr(args.ifName)];
    match env.delLink {
      case LinkNotFound =>
        return Ok(None), calls;
      case LinkFailed(c) =>
        return Err(CollaboratorErr(LinkDelete, c)), calls;
      case LinkDeleted =>
    }
    return Ok(None), calls;
  }
}
