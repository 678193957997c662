/** Properties of the ADD command, stated over its functional specification. */
module AddProperties {
  import opened Wrappers
  import opened Types
  import opened Engines
  import opened IpSelect
  import opened Plugin
  import opened Traces

  /** A configuration that decodes, naming `vpp` as its host engine. */
  predicate HostReady(env: AddEnv) {
    env.unmarshal.Success? && env.unmarshal.value.hostConf.engine == Vpp
  }

  /** The IPAM stage of ADD yields an address: IPAM is off, or exec and conversion gave records. */
  predicate IpamReady(env: AddEnv)
    requires env.unmarshal.Success?
  {
    env.unmarshal.value.ipam.ipamType == ""
    || (env.ipamExecAdd.Done? && env.newResult.Success? && env.newResult.value != [])
  }

  /** A configuration that fails to decode ends ADD with a load error before any call. */
  lemma AddConfigLoadError(args: CmdArgs, env: AddEnv)
    requires env.unmarshal.Failure?
    ensures AddSpec(args, env) == Run(Err(ConfigLoadErr(env.unmarshal.error)), [])
  {
  }

  /**
   * A host engine other than `vpp` ends ADD before any call: with the
   * not-supported error for `ovs-dpdk` and the unknown-engine error for
   * anything else, both naming the host role and the engine.
   */
  lemma AddHostEngineRejected(args: CmdArgs, env: AddEnv)
    requires env.unmarshal.Success?
    requires env.unmarshal.value.hostConf.engine != Vpp
    ensures var name := env.unmarshal.value.hostConf.engine;
      AddSpec(args, env).calls == []
      && (name == OvsDpdk ==> AddSpec(args, env).outcome == Err(UnsupportedEngine(Host, name)))
      && (name != OvsDpdk ==> AddSpec(args, env).outcome == Err(UnknownEngine(Host, name)))
  {
  }

  /**
   * Every ADD makes a prefix of its plan: host attach, then the IPAM
   * allocate and conversion when an IPAM type is configured, then the
   * container attach, then the report. In particular the host attach comes
   * before any IPAM call and the IPAM calls come before the container attach.
   * The report, whether or not printing succeeds, gets the configuration's
   * CNI version and the IPAM records with gateways cleared (nothing without IPAM).
   */
  lemma AddFollowsPlan(args: CmdArgs, env: AddEnv)
    ensures env.unmarshal.Failure? ==> AddSpec(args, env).calls == []
    ensures env.unmarshal.Success? ==>
      Steps(AddSpec(args, env).calls) <= AddPlan(env.unmarshal.value.ipam.ipamType != "")
    ensures AddSpec(args, env).outcome.Ok? ==>
      env.unmarshal.Success? &&
      Steps(AddSpec(args, env).calls) == AddPlan(env.unmarshal.value.ipam.ipamType != "")
    ensures var calls := AddSpec(args, env).calls;
      forall k :: 0 <= k < |calls| && calls[k].PrintResult? ==>
        env.unmarshal.Success?
        && calls[k].cniVersion == env.unmarshal.value.cniVersion
        && calls[k].result ==
             (if env.unmarshal.value.ipam.ipamType == "" then None
              else Some(WithoutGateways(env.newResult.value)))
  {
  }

  /** The part of ADD after the host attach stops at its first failing step. */
  lemma AfterHostStopsAtFirstFailure(args: CmdArgs, conf: NetConf, env: AddEnv)
    ensures StopsAtFirstFailure(env.FailureAt, AddAfterHost(args, conf, env))
  {
  }

  /**
   * ADD stops at the first failing step and undoes nothing: it never
   * detaches on the host or in the container and never releases an address.
   */
  lemma AddStopsAtFirstFailure(args: CmdArgs, env: AddEnv)
    ensures StopsAtFirstFailure(env.FailureAt, AddSpec(args, env))
    ensures var calls := AddSpec(args, env).calls;
      forall k :: 0 <= k < |calls| ==>
        !calls[k].CniVppDelFromHost? && !calls[k].CniVppDelFromContainer? && !calls[k].IpamExecDel?
  {
    if HostReady(env) && env.addOnHost.Done? {
      var conf := env.unmarshal.value;
      AfterHostStopsAtFirstFailure(args, conf, env);
      PrependSucceeded(env.FailureAt, [CniVppAddOnHost(args.containerID, ZeroIpData)], AddAfterHost(args, conf, env));
    }
  }

  /**
   * ADD calls the IPAM allocate exactly when the configuration decodes,
   * the host engine is `vpp`, the host attach succeeded and an IPAM type
   * is configured; the call passes that type and the raw stdin bytes.
   */
  lemma AddAllocatesIffIpamConfigured(args: CmdArgs, env: AddEnv)
    ensures var calls := AddSpec(args, env).calls;
      (exists k :: 0 <= k < |calls| && calls[k].IpamExecAdd?) <==>
        HostReady(env) && env.addOnHost.Done? && env.unmarshal.value.ipam.ipamType != ""
    ensures var calls := AddSpec(args, env).calls;
      forall k :: 0 <= k < |calls| && calls[k].IpamExecAdd? ==>
        calls[k] == IpamExecAdd(env.unmarshal.value.ipam.ipamType, args.stdinData)
  {
    var calls := AddSpec(args, env).calls;
    if HostReady(env) && env.addOnHost.Done? && env.unmarshal.value.ipam.ipamType != "" {
      assert calls[1].IpamExecAdd?;
    }
  }

  /**
   * An IPAM result with no records ends ADD with the no-address error,
   * and nothing else does: the host attach has happened, no container
   * attach is attempted and nothing is undone.
   */
  lemma AddNoAddressIff(args: CmdArgs, env: AddEnv)
    ensures AddSpec(args, env).outcome == Err(NoAddress) <==>
      HostReady(env) && env.addOnHost.Done? && env.unmarshal.value.ipam.ipamType != ""
      && env.ipamExecAdd.Done? && env.newResult == Success([])
    ensures AddSpec(args, env).outcome == Err(NoAddress) ==>
      AddSpec(args, env).calls == [
        CniVppAddOnHost(args.containerID, ZeroIpData),
        IpamExecAdd(env.unmarshal.value.ipam.ipamType, args.stdinData),
        NewResultFromResult]
  {
  }

  /**
   * The host attach is given the zero `IPDataType`; the container attach
   * is given the address selected from the IPAM records when IPAM is
   * configured, and the zero value when it is not.
   */
  lemma AddAttachIpData(args: CmdArgs, env: AddEnv)
    ensures var calls := AddSpec(args, env).calls;
      forall k :: 0 <= k < |calls| && calls[k].CniVppAddOnHost? ==>
        calls[k] == CniVppAddOnHost(args.containerID, ZeroIpData)
    ensures var calls := AddSpec(args, env).calls;
      forall k :: 0 <= k < |calls| && calls[k].CniVppAddOnContainer? ==>
        env.unmarshal.Success?
        && calls[k].containerID == args.containerID
        && (env.unmarshal.value.ipam.ipamType == "" ==> calls[k].ipData == ZeroIpData)
        && (env.unmarshal.value.ipam.ipamType != "" ==>
              env.newResult.Success? && calls[k].ipData == IpDataFor(env.newResult.value))
  {
  }

  /**
   * The container attach is made only when the effective container engine
   * is `vpp`; a container-role engine error names the effective container
   * engine, which then comes from a non-empty container engine setting.
   */
  lemma AddContainerUsesEffectiveEngine(args: CmdArgs, env: AddEnv)
    ensures var calls := AddSpec(args, env).calls;
      (exists k :: 0 <= k < |calls| && calls[k].CniVppAddOnContainer?) ==>
        HostReady(env) && ContainerEngine(env.unmarshal.value) == Vpp
    ensures var out := AddSpec(args, env).outcome;
      out.Err? && (out.error.UnsupportedEngine? || out.error.UnknownEngine?) && out.error.role == Container ==>
        HostReady(env)
        && out.error.name == ContainerEngine(env.unmarshal.value)
        && out.error.name == env.unmarshal.value.containerConf.engine
        && env.unmarshal.value.containerConf.engine != ""
  {
  }

  /**
   * A container engine other than `vpp` fails ADD once the host attach and
   * the IPAM stage have succeeded, with no container attach: not supported
   * for `ovs-dpdk`, unknown otherwise. The host attach and, with IPAM, the
   * allocate and conversion have been made by then and stay in place.
   */
  lemma AddContainerEngineRejected(args: CmdArgs, env: AddEnv)
    requires HostReady(env) && env.addOnHost.Done?
    requires IpamReady(env)
    requires ContainerEngine(env.unmarshal.value) != Vpp
    ensures var name := ContainerEngine(env.unmarshal.value);
      var run := AddSpec(args, env);
      (forall k :: 0 <= k < |run.calls| ==> !run.calls[k].CniVppAddOnContainer?)
      && (name == OvsDpdk ==> run.outcome == Err(UnsupportedEngine(Container, name)))
      && (name != OvsDpdk ==> run.outcome == Err(UnknownEngine(Container, name)))
    ensures var t := env.unmarshal.value.ipam.ipamType;
      AddSpec(args, env).calls ==
        [CniVppAddOnHost(args.containerID, ZeroIpData)]
        + (if t == "" then [] else [IpamExecAdd(t, args.stdinData), NewResultFromResult])
  {
  }

  /**
   * A successful ADD reports nothing when IPAM is not configured, and
   * otherwise the IPAM records, at least one, with their gateways cleared.
   * Its last call hands that result to the printer with the configuration's
   * CNI version unchanged.
   */
  lemma AddReportedResult(args: CmdArgs, env: AddEnv)
    requires AddSpec(args, env).outcome.Ok?
    ensures env.unmarshal.Success?
    ensures env.unmarshal.value.ipam.ipamType == "" ==> AddSpec(args, env).outcome.result == None
    ensures env.unmarshal.value.ipam.ipamType != "" ==>
      env.newResult.Success? && env.newResult.value != []
      && AddSpec(args, env).outcome.result == Some(WithoutGateways(env.newResult.value))
    ensures AddSpec(args, env).outcome.result.Some? ==>
      forall i :: 0 <= i < |AddSpec(args, env).outcome.result.value| ==>
        AddSpec(args, env).outcome.result.value[i].gateway == None
    ensures var calls := AddSpec(args, env).calls;
      calls != [] && calls[|calls| - 1] ==
        PrintResult(AddSpec(args, env).outcome.result, env.unmarshal.value.cniVersion)
  {
  }

  /**
   * ADD succeeds when nothing fails: both engines are `vpp`, every
   * collaborator succeeds and IPAM, when configured, returns records. It
   * reports nothing without IPAM and the records with gateways cleared with it.
   */
  lemma AddSucceedsWhenNothingFails(args: CmdArgs, env: AddEnv)
    requires HostReady(env) && env.addOnHost.Done?
    requires ContainerEngine(env.unmarshal.value) == Vpp
    requires IpamReady(env)
    requires env.addOnContainer.Done? && env.printResult.Done?
    ensures AddSpec(args, env).outcome ==
      Ok(if env.unmarshal.value.ipam.ipamType == "" then None else Some(WithoutGateways(env.newResult.value)))
  {
  }

  /**
   * Every error ADD ends with has its own reason: a load error exactly when
   * decoding failed, carrying the decoder's error; an engine error names a
   * non-`vpp` engine of its role, not supported exactly for `ovs-dpdk`; a
   * host-role error names the host engine; a container-role error names the
   * effective container engine and happens only after a successful host
   * attach and IPAM stage.
   */
  lemma AddErrorsExplained(args: CmdArgs, env: AddEnv)
    ensures var out := AddSpec(args, env).outcome;
      (out.Err? && out.error.ConfigLoadErr?) <==> env.unmarshal.Failure?
    ensures var out := AddSpec(args, env).outcome;
      out.Err? && out.error.ConfigLoadErr? ==> out.error.cause == env.unmarshal.error
    ensures var out := AddSpec(args, env).outcome;
      out.Err? && (out.error.UnsupportedEngine? || out.error.UnknownEngine?) ==>
        env.unmarshal.Success?
        && out.error.name != Vpp
        && (out.error.UnsupportedEngine? <==> out.error.name == OvsDpdk)
        && (out.error.role == Host ==> out.error.name == env.unmarshal.value.hostConf.engine)
        && (out.error.role == Container ==>
              HostReady(env) && env.addOnHost.Done? && IpamReady(env)
              && out.error.name == ContainerEngine(env.unmarshal.value))
  {
  }
}
