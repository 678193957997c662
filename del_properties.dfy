/** Properties of the DEL command, stated over its functional specification. */
module DelProperties {
  import opened Wrappers
  import opened Types
  import opened Engines
  import opened Plugin
  import opened Traces

  /** The configuration decodes and both detaches succeeded. */
  predicate DetachedBoth(env: DelEnv) {
    && env.unmarshal.Success?
    && env.unmarshal.value.hostConf.engine == Vpp
    && env.delFromHost.Done?
    && ContainerEngine(env.unmarshal.value) == Vpp
    && env.delFromContainer.Done?
  }

  /** Everything before the namespace cleanup succeeded. */
  predicate ReadyForNetns(env: DelEnv) {
    DetachedBoth(env) && (env.unmarshal.value.ipam.ipamType != "" ==> env.ipamExecDel.Done?)
  }

  /** A configuration that fails to decode ends DEL with a load error before any call. */
  lemma DelConfigLoadError(args: CmdArgs, env: DelEnv)
    requires env.unmarshal.Failure?
    ensures DelSpec(args, env) == Run(Err(ConfigLoadErr(env.unmarshal.error)), [])
  {
  }

  /**
   * A host engine other than `vpp` ends DEL before any call: not supported
   * for `ovs-dpdk`, unknown otherwise, naming the host role and the engine.
   */
  lemma DelHostEngineRejected(args: CmdArgs, env: DelEnv)
    requires env.unmarshal.Success?
    requires env.unmarshal.value.hostConf.engine != Vpp
    ensures var name := env.unmarshal.value.hostConf.engine;
      DelSpec(args, env).calls == []
      && (name == OvsDpdk ==> DelSpec(args, env).outcome == Err(UnsupportedEngine(Host, name)))
      && (name != OvsDpdk ==> DelSpec(args, env).outcome == Err(UnknownEngine(Host, name)))
  {
  }

  /**
   * A container engine other than `vpp` fails DEL right after a successful
   * host detach, before any container, IPAM or namespace call; the error
   * names the effective container engine, which then comes from a
   * non-empty container engine setting.
   */
  lemma DelContainerEngineRejected(args: CmdArgs, env: DelEnv)
    requires env.unmarshal.Success? && env.unmarshal.value.hostConf.engine == Vpp
    requires env.delFromHost.Done?
    requires ContainerEngine(env.unmarshal.value) != Vpp
    ensures var name := ContainerEngine(env.unmarshal.value);
      var run := DelSpec(args, env);
      run.calls == [CniVppDelFromHost(args.containerID)]
      && name == env.unmarshal.value.containerConf.engine && name != ""
      && (name == OvsDpdk ==> run.outcome == Err(UnsupportedEngine(Container, name)))
      && (name != OvsDpdk ==> run.outcome == Err(UnknownEngine(Container, name)))
  {
  }

  /**
   * Every DEL makes a prefix of its plan: host detach, container detach,
   * the IPAM release when an IPAM type is configured, then entering the
   * namespace and deleting the link when a namespace path is given. Both
   * detaches name the container ID and namespace entry uses the given path.
   */
  lemma DelFollowsPlan(args: CmdArgs, env: DelEnv)
    ensures env.unmarshal.Failure? ==> DelSpec(args, env).calls == []
    ensures env.unmarshal.Success? ==>
      Steps(DelSpec(args, env).calls) <= DelPlan(env.unmarshal.value.ipam.ipamType != "", args.netns != "")
    ensures DelSpec(args, env).outcome.Ok? ==>
      env.unmarshal.Success? &&
      Steps(DelSpec(args, env).calls) == DelPlan(env.unmarshal.value.ipam.ipamType != "", args.netns != "")
    ensures var calls := DelSpec(args, env).calls;
      forall k :: 0 <= k < |calls| ==>
        (calls[k].CniVppDelFromHost? ==> calls[k].containerID == args.containerID)
        && (calls[k].CniVppDelFromContainer? ==> calls[k].containerID == args.containerID)
        && (calls[k].WithNetNSPath? ==> calls[k].netns == args.netns)
  {
  }

  /** The part of DEL after both detaches stops at its first failing step. */
  lemma DelAfterDetachStopsAtFirstFailure(args: CmdArgs, conf: NetConf, env: DelEnv)
    ensures StopsAtFirstFailure(env.FailureAt, DelAfterDetach(args, conf, env))
  {
  }

  /**
   * DEL stops at the first failing step: every call but the last one
   * succeeded; a collaborator error names the last step made and carries
   * that collaborator's own error; a failing last call always ends DEL with
   * its error; a successful DEL saw no failure ("link not found" is none).
   */
  lemma DelStopsAtFirstFailure(args: CmdArgs, env: DelEnv)
    ensures StopsAtFirstFailure(env.FailureAt, DelSpec(args, env))
  {
    if DetachedBoth(env) {
      var conf := env.unmarshal.value;
      DelAfterDetachStopsAtFirstFailure(args, conf, env);
      PrependSucceeded(env.FailureAt,
        [CniVppDelFromHost(args.containerID), CniVppDelFromContainer(args.containerID)],
        DelAfterDetach(args, conf, env));
    }
  }

  /**
   * DEL calls the IPAM release exactly when both detaches succeeded and an
   * IPAM type is configured, passing that type and the raw stdin bytes.
   */
  lemma DelReleasesIffIpamConfigured(args: CmdArgs, env: DelEnv)
    ensures var calls := DelSpec(args, env).calls;
      (exists k :: 0 <= k < |calls| && calls[k].IpamExecDel?) <==>
        DetachedBoth(env) && env.unmarshal.value.ipam.ipamType != ""
    ensures var calls := DelSpec(args, env).calls;
      forall k :: 0 <= k < |calls| && calls[k].IpamExecDel? ==>
        calls[k] == IpamExecDel(env.unmarshal.value.ipam.ipamType, args.stdinData)
  {
    var calls := DelSpec(args, env).calls;
    if DetachedBoth(env) && env.unmarshal.value.ipam.ipamType != "" {
      assert calls[2].IpamExecDel?;
    }
  }

  /**
   * Link deletion is attempted exactly when every earlier step succeeded,
   * a namespace path is given and the namespace could be entered; it
   * targets the interface named in the arguments.
   */
  lemma DelLinkOnlyWithNetns(args: CmdArgs, env: DelEnv)
    ensures var calls := DelSpec(args, env).calls;
      (exists k :: 0 <= k < |calls| && calls[k].DelLinkByNameAddr?) <==>
        ReadyForNetns(env) && args.netns != "" && env.withNetNSPath.Done?
    ensures var calls := DelSpec(args, env).calls;
      forall k :: 0 <= k < |calls| && calls[k].DelLinkByNameAddr? ==>
        calls[k] == DelLinkByNameAddr(args.ifName)
  {
    var calls := DelSpec(args, env).calls;
    if ReadyForNetns(env) && args.netns != "" && env.withNetNSPath.Done? {
      assert calls[|calls| - 1].DelLinkByNameAddr?;
    }
  }

  /** Without a namespace path DEL succeeds once the detaches and the release did. */
  lemma DelWithoutNetnsSucceeds(args: CmdArgs, env: DelEnv)
    requires ReadyForNetns(env) && args.netns == ""
    ensures DelSpec(args, env).outcome == Ok(None)
  {
  }

  /**
   * Once the namespace is entered, a deleted or already absent link ends
   * DEL successfully and any other deletion error is returned.
   */
  lemma DelLinkNotFoundIsSuccess(args: CmdArgs, env: DelEnv)
    requires ReadyForNetns(env) && args.netns != "" && env.withNetNSPath.Done?
    ensures env.delLink.LinkFailed? ==>
      DelSpec(args, env).outcome == Err(CollaboratorErr(LinkDelete, env.delLink.cause))
    ensures !env.delLink.LinkFailed? ==> DelSpec(args, env).outcome == Ok(None)
  {
  }

  /**
   * DEL can be repeated: when a DEL succeeded, the same DEL answered with
   * "link not found" by the now empty namespace succeeds too.
   */
  lemma DelRepeatable(args: CmdArgs, env: DelEnv)
    requires DelSpec(args, env).outcome.Ok?
    ensures DelSpec(args, env.(delLink := LinkNotFound)).outcome == Ok(None)
  {
  }

  /**
   * Every error DEL ends with has its own reason: a load error exactly when
   * decoding failed, carrying the decoder's error; an engine error names a
   * non-`vpp` engine of its role, not supported exactly for `ovs-dpdk`; a
   * host-role error names the host engine; a container-role error names the
   * effective container engine and happens only after a successful host
   * detach; DEL never ends with the no-address error.
   */
  lemma DelErrorsExplained(args: CmdArgs, env: DelEnv)
    ensures var out := DelSpec(args, env).outcome;
      (out.Err? && out.error.ConfigLoadErr?) <==> env.unmarshal.Failure?
    ensures var out := DelSpec(args, env).outcome;
      out.Err? && out.error.ConfigLoadErr? ==> out.error.cause == env.unmarshal.error
    ensures var out := DelSpec(args, env).outcome;
      out.Err? && (out.error.UnsupportedEngine? || out.error.UnknownEngine?) ==>
        env.unmarshal.Success?
        && out.error.name != Vpp
        && (out.error.UnsupportedEngine? <==> out.error.name == OvsDpdk)
        && (out.error.role == Host ==> out.error.name == env.unmarshal.value.hostConf.engine)
        && (out.error.role == Container ==>
              env.unmarshal.value.hostConf.engine == Vpp && env.delFromHost.Done?
              && out.error.name == ContainerEngine(env.unmarshal.value))
    ensures DelSpec(args, env).outcome != Err(NoAddress)
  {
  }
}
