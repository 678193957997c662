/**
 * The collaborators of the two commands, seen from the orchestration: what
 * each one is asked to do (a `Call`), what it answers (supplied by an
 * environment), the error kinds a command can end with, and the functional
 * specification of ADD and DEL as a final outcome plus the calls made.
 */
module Plugin {
  import opened Wrappers
  import opened Types
  import opened Engines
  import opened IpSelect

  /** The error value a collaborator returns; passed through unchanged. */
  type Cause = string

  /** What an engine, IPAM or namespace collaborator answers. */
  datatype Status = Done | Failed(cause: Cause) {
    function FailureCause(): Option<Cause> {
      match this
      case Done => None
      case Failed(c) => Some(c)
    }
  }

  /** What link deletion answers; "not found" is its own answer. */
  datatype LinkStatus = LinkDeleted | LinkNotFound | LinkFailed(cause: Cause)

  /** The steps of the two commands that can fail with a collaborator's error. */
  datatype Step =
    | HostAttach | IpamAllocate | IpamConvert | ContainerAttach | Report
    | HostDetach | ContainerDetach | IpamRelease | NetnsEnter | LinkDelete

  /** A call made to a collaborator, with the arguments that vary. */
  datatype Call =
    | CniVppAddOnHost(containerID: string, ipData: IPData)
    | IpamExecAdd(ipamType: string, stdinData: seq<Byte>)
    | NewResultFromResult
    | CniVppAddOnContainer(containerID: string, ipData: IPData)
    | PrintResult(result: Option<seq<IPConfig>>, cniVersion: string)
    | CniVppDelFromHost(containerID: string)
    | CniVppDelFromContainer(containerID: string)
    | IpamExecDel(ipamType: string, stdinData: seq<Byte>)
    | WithNetNSPath(netns: string)
    | DelLinkByNameAddr(ifName: string)

  function StepOf(c: Call): Step {
    match c
    case CniVppAddOnHost(_, _) => HostAttach
    case IpamExecAdd(_, _) => IpamAllocate
    case NewResultFromResult => IpamConvert
    case CniVppAddOnContainer(_, _) => ContainerAttach
    case PrintResult(_, _) => Report
    case CniVppDelFromHost(_) => HostDetach
    case CniVppDelFromContainer(_) => ContainerDetach
    case IpamExecDel(_, _) => IpamRelease
    case WithNetNSPath(_) => NetnsEnter
    case DelLinkByNameAddr(_) => LinkDelete
  }

  function Steps(calls: seq<Call>): seq<Step> {
    seq(|calls|, i requires 0 <= i < |calls| => StepOf(calls[i]))
  }

  /** The kinds of failure a command can end with. */
  datatype Error =
    | ConfigLoadErr(cause: Cause)
    | UnsupportedEngine(role: Role, name: string)
    | UnknownEngine(role: Role, name: string)
    | CollaboratorErr(step: Step, cause: Cause)
    | NoAddress

  /** A command's result: success with the result to report, or an error. */
  datatype Outcome = Ok(result: Option<seq<IPConfig>>) | Err(error: Error)

  /** A command's outcome with the collaborator calls it made, in order. */
  datatype Run = Run(outcome: Outcome, calls: seq<Call>)

  /** A stage of a command: its value or error, and the calls it made. */
  datatype Stage<T> = Stage(value: Result<T, Error>, calls: seq<Call>)

  /**
   * The answers the collaborators of ADD give in one invocation: what the
   * JSON decoding of stdin yields, then the host attach, the IPAM exec, the
   * conversion of its result, the container attach and the printing.
   */
  datatype AddEnv = AddEnv(
    unmarshal: Result<NetConf, Cause>,
    addOnHost: Status,
    ipamExecAdd: Status,
    newResult: Result<seq<IPConfig>, Cause>,
    addOnContainer: Status,
    printResult: Status)
  {
    /** The error the collaborator behind `s` returns, if it fails. */
    function FailureAt(s: Step): Option<Cause> {
      match s
      case HostAttach => addOnHost.FailureCause()
      case IpamAllocate => ipamExecAdd.FailureCause()
      case IpamConvert => if newResult.Failure? then Some(newResult.error) else None
      case ContainerAttach => addOnContainer.FailureCause()
      case Report => printResult.FailureCause()
      case _ => None
    }
  }

  /**
   * The answers the collaborators of DEL give: the decoding of stdin, the
   * host and container detach, the IPAM release, entering the namespace and
   * deleting the link.
   */
  datatype DelEnv = DelEnv(
    unmarshal: Result<NetConf, Cause>,
    delFromHost: Status,
    delFromContainer: Status,
    ipamExecDel: Status,
    withNetNSPath: Status,
    delLink: LinkStatus)
  {
    /** The error the collaborator behind `s` returns, if it fails. */
    function FailureAt(s: Step): Option<Cause> {
      match s
      case HostDetach => delFromHost.FailureCause()
      case ContainerDetach => delFromContainer.FailureCause()
      case IpamRelease => ipamExecDel.FailureCause()
      case NetnsEnter => withNetNSPath.FailureCause()
      case LinkDelete => if delLink.LinkFailed? then Some(delLink.cause) else None
      case _ => None
    }
  }

  /** `loadNetConf`: the decoded configuration, or a load error wrapping the decoder's. */
  function LoadNetConf(unmarshalled: Result<NetConf, Cause>): (r: Result<NetConf, Error>)
    ensures r.Success? <==> unmarshalled.Success?
    ensures r.Success? ==> r.value == unmarshalled.value
    ensures r.Failure? ==> r.error == ConfigLoadErr(unmarshalled.error)
  {
    match unmarshalled
    case Success(conf) => Success(conf)
    case Failure(e) => Failure(ConfigLoadErr(e))
  }

  /** The error engine dispatch reports for `name` in `role`, if any. */
  function EngineError(role: Role, name: string): (r: Option<Error>)
    ensures r == None <==> name == Vpp
    ensures name == OvsDpdk ==> r == Some(UnsupportedEngine(role, name))
    ensures name != Vpp && name != OvsDpdk ==> r == Some(UnknownEngine(role, name))
  {
    match Classify(name)
    case Supported => None
    case NotSupported => Some(UnsupportedEngine(role, name))
    case Unknown => Some(UnknownEngine(role, name))
  }

  /** The order in which ADD calls its collaborators when nothing fails. */
  function AddPlan(withIpam: bool): seq<Step> {
    [HostAttach] + (if withIpam then [IpamAllocate, IpamConvert] else []) + [ContainerAttach, Report]
  }

  /** The order in which DEL calls its collaborators when nothing fails. */
  function DelPlan(withIpam: bool, withNetns: bool): seq<Step> {
    [HostDetach, ContainerDetach]
      + (if withIpam then [IpamRelease] else [])
      + (if withNetns then [NetnsEnter, LinkDelete] else [])
  }

  /**
   * The IPAM stage of ADD: nothing when no IPAM type is configured;
   * otherwise allocate, convert, refuse an empty result, and yield the
   * records to report (gateways cleared) with the address for the engines.
   */
  function AddIpamStage(args: CmdArgs, conf: NetConf, env: AddEnv): Stage<(Option<seq<IPConfig>>, IPData)> {
    if conf.ipam.ipamType == "" then Stage(Success((None, ZeroIpData)), [])
    else
      var exec := [IpamExecAdd(conf.ipam.ipamType, args.stdinData)];
      if env.ipamExecAdd.Failed? then
        Stage(Failure(CollaboratorErr(IpamAllocate, env.ipamExecAdd.cause)), exec)
      else
        var conv := exec + [NewResultFromResult];
        match env.newResult
        case Failure(c) => Stage(Failure(CollaboratorErr(IpamConvert, c)), conv)
        case Success(records) =>
          if records == [] then Stage(Failure(NoAddress), conv)
          else Stage(Success((Some(WithoutGateways(records)), IpDataFor(records))), conv)
  }

  /** ADD after the host attach succeeded. */
  function AddAfterHost(args: CmdArgs, conf: NetConf, env: AddEnv): Run {
    var ipam := AddIpamStage(args, conf, env);
    match ipam.value
    case Failure(e) => Run(Err(e), ipam.calls)
    case Success((result, ipData)) =>
      var engine := ContainerEngine(conf);
      match EngineError(Container, engine)
      case Some(e) => Run(Err(e), ipam.calls)
      case None =>
        var attach := ipam.calls + [CniVppAddOnContainer(args.containerID, ipData)];
        if env.addOnContainer.Failed? then
          Run(Err(CollaboratorErr(ContainerAttach, env.addOnContainer.cause)), attach)
        else
          var report := attach + [PrintResult(result, conf.cniVersion)];
          if env.printResult.Failed? then
            Run(Err(CollaboratorErr(Report, env.printResult.cause)), report)
          else Run(Ok(result), report)
  }

  /** The functional specification of `cmdAdd`. */
  function AddSpec(args: CmdArgs, env: AddEnv): Run {
    match LoadNetConf(env.unmarshal)
    case Failure(e) => Run(Err(e), [])
    case Success(conf) =>
      match EngineError(Host, conf.hostConf.engine)
      case Some(e) => Run(Err(e), [])
      case None =>
        var host := [CniVppAddOnHost(args.containerID, ZeroIpData)];
        if env.addOnHost.Failed? then
          Run(Err(CollaboratorErr(HostAttach, env.addOnHost.cause)), host)
        else
          var rest := AddAfterHost(args, conf, env);
          Run(rest.outcome, host + rest.calls)
  }

  /** The namespace cleanup of DEL; "link not found" counts as success. */
  function DelNetnsStage(args: CmdArgs, env: DelEnv): Run {
    if args.netns == "" then Run(Ok(None), [])
    else
      var enter := [WithNetNSPath(args.netns)];
      if env.withNetNSPath.Failed? then
        Run(Err(CollaboratorErr(NetnsEnter, env.withNetNSPath.cause)), enter)
      else
        var del := enter + [DelLinkByNameAddr(args.ifName)];
        match env.delLink
        case LinkFailed(c) => Run(Err(CollaboratorErr(LinkDelete, c)), del)
        case _ => Run(Ok(None), del)
  }

  /** DEL after both detaches succeeded. */
  function DelAfterDetach(args: CmdArgs, conf: NetConf, env: DelEnv): Run {
    if conf.ipam.ipamType != "" then
      var release := [IpamExecDel(conf.ipam.ipamType, args.stdinData)];
      if env.ipamExecDel.Failed? then
        Run(Err(CollaboratorErr(IpamRelease, env.ipamExecDel.cause)), release)
      else
        var rest := DelNetnsStage(args, env);
        Run(rest.outcome, release + rest.calls)
    else DelNetnsStage(args, env)
  }

  /** The functional specification of `cmdDel`. */
  function DelSpec(args: CmdArgs, env: DelEnv): Run {
    match LoadNetConf(env.unmarshal)
    case Failure(e) => Run(Err(e), [])
    case Success(conf) =>
      match EngineError(Host, conf.hostConf.engine)
      case Some(e) => Run(Err(e), [])
      case None =>
        var host := [CniVppDelFromHost(args.containerID)];
        if env.delFromHost.Failed? then
          Run(Err(CollaboratorErr(HostDetach, env.delFromHost.cause)), host)
        else
          match EngineError(Container, ContainerEngine(conf))
          case Some(e) => Run(Err(e), host)
          case None =>
            var container := host + [CniVppDelFromContainer(args.containerID)];
            if env.delFromContainer.Failed? then
              Run(Err(CollaboratorErr(ContainerDetach, env.delFromContainer.cause)), container)
            else
              var rest := DelAfterDetach(args, conf, env);
              Run(rest.outcome, container + rest.calls)
  }
}
