# Userspace CNI plugin: ADD/DEL orchestration

This project models the command handlers of the userspace container-network
plugin (`userspace/userspace.go`). A container runtime invokes the plugin with
ADD to attach a network interface to a sandbox and with DEL to tear it down.
The handlers decide what to call and in which order. ADD attaches on the host
through the host engine, optionally allocates an address through an IPAM
plugin, then attaches inside the container through the container engine and
reports the result. DEL detaches on the host and in the container, releases
the address and deletes the link inside the sandbox's network namespace.

Every collaborator is an oracle. `Plugin.AddEnv` and `Plugin.DelEnv` hold what
each one answers in one invocation: the JSON decoding of stdin, the VPP engine
calls, the IPAM exec and result conversion, result printing, namespace entry
and link deletion. Each collaborator is called at most once per command, so
one answer per step is fully general. A command yields an `Outcome` (success
with the result to report, or one of the error kinds) and, as a ghost
out-parameter, the sequence of `Call`s it made.

Layout:
- `wrappers.dfy`: Option and Result.
- `types.dfy`: the inspected parts of `NetConf`, `IPDataType`, IPAM result records and the command arguments.
- `engines.dfy`: the three-way engine-name split and the container-engine default.
- `ipselect.dfy`: the IP-selection loop and the gateway-clearing loop, each proved against a functional definition.
- `plugin.dfy`: the collaborator calls, their answers, the error kinds, and the functional specifications `AddSpec` and `DelSpec`.
- `userspace.dfy`: `CmdAdd` and `CmdDel` as imperative methods, proved equal to the specifications.
- `traces.dfy`, `add_properties.dfy`, `del_properties.dfy`: properties of the two commands.

Notes on the model:
- Addresses are non-empty text. `net.IP.String()` never returns "" (a nil address prints "<nil>"). So the loop's `ipData.Address != ""` exit test fires exactly at the first record whose version is "4" or "6".
- `byte(prefix)` is modelled as truncation to eight bits. With prefix lengths 0..128 it never changes the value.
- Without IPAM the handler builds no result at all: it passes nil to `PrintResult`. The model reports `None`.
- DEL detaches on the host first, then in the container, as the code does.

## Model

| member | source | states |
|---|---|---|
| Types.ToByte | userspace/userspace.go:139-140 | the `byte(prefix)` conversion leaves every value in 0..255 unchanged |
| Engines.Classify | userspace/userspace.go:79-88 | "vpp" is supported, "ovs-dpdk" is recognised but not supported, and every other name is unknown, each as an if-and-only-if |
| Engines.ContainerEngine | userspace/userspace.go:164-168 | the container engine is the container setting when that is non-empty, otherwise the host engine; it is always one of the two |
| Engines.ContainerEngineUnsetOnlyIfBothUnset | userspace/userspace.go:164-168 | the effective container engine is empty exactly when both settings are |
| Plugin.LoadNetConf | userspace/userspace.go:49-56 | loading succeeds exactly when decoding does and yields the decoded configuration; a decode error becomes a load error carrying it |
| Plugin.EngineError | userspace/userspace.go:79-88 | dispatch reports no error exactly for "vpp", a not-supported error for "ovs-dpdk", and an unknown-engine error for any other name, each naming the role and engine |
| IpSelect.FirstUsable | userspace/userspace.go:135-152 | gives the least index whose record has version "4" or "6", or nothing exactly when no record qualifies |
| IpSelect.IpDataForMeaning | userspace/userspace.go:135-152 | the selected address is zero exactly when no record qualifies; otherwise it has the first qualifying record's address and prefix length, and IsIpv6 is 1 iff that version is "6" and 0 iff it is "4" |
| IpSelect.SelectIpData | userspace/userspace.go:135-152 | the selection loop with its early exit yields the address of the first qualifying record, or the zero value |
| IpSelect.WithoutGateways | userspace/userspace.go:155-157 | the reported records keep the input's count and order, and each one is its input record with only the gateway cleared |
| IpSelect.SelectionIgnoresGateways | userspace/userspace.go:135-157 | address selection gives the same result before and after gateways are cleared |
| IpSelect.ClearGateways | userspace/userspace.go:155-157 | the in-place loop leaves the array equal to the records with their gateways cleared |
| Userspace.CmdAdd | userspace/userspace.go:59-183 | the imperative ADD handler returns the outcome and makes the calls given by the ADD specification |
| Userspace.CmdDel | userspace/userspace.go:185-269 | the imperative DEL handler returns the outcome and makes the calls given by the DEL specification |
| AddProperties.AddConfigLoadError | userspace/userspace.go:67-71 | a configuration that does not decode ends ADD with a load error and no calls |
| AddProperties.AddHostEngineRejected | userspace/userspace.go:79-88 | a host engine other than "vpp" ends ADD with no calls: not supported for "ovs-dpdk", unknown otherwise, naming the host role and engine |
| AddProperties.AddFollowsPlan | userspace/userspace.go:79-182 | the calls of every ADD are a prefix of: host attach, then IPAM allocate and conversion when IPAM is configured, then container attach, then report; a successful ADD makes all of them; every report call gets the CNI version and the gateway-cleared records (nothing without IPAM) |
| AddProperties.AddStopsAtFirstFailure | userspace/userspace.go:79-182 | every call but the last succeeded; a collaborator error is the last step's own error; a failing step always ends ADD; a successful ADD saw no failure; ADD never calls a detach or an IPAM release, so nothing is undone |
| AddProperties.AddAllocatesIffIpamConfigured | userspace/userspace.go:96-116 | the IPAM allocate is called exactly when the host attach succeeded and the IPAM type is non-empty, with that type and the stdin bytes |
| AddProperties.AddNoAddressIff | userspace/userspace.go:125-128 | ADD fails with the no-address error exactly when IPAM returned zero records, after the host attach and with no container attach |
| AddProperties.AddAttachIpData | userspace/userspace.go:135-172 | the host attach gets the zero address; the container attach gets the selected address when IPAM is configured and the zero value when not |
| AddProperties.AddContainerUsesEffectiveEngine | userspace/userspace.go:164-180 | the container attach happens only when the effective container engine is "vpp"; a container-role engine error names the effective engine, which then came from a non-empty container setting |
| AddProperties.AddContainerEngineRejected | userspace/userspace.go:171-180 | once host and IPAM steps succeeded, a container engine other than "vpp" fails ADD with no container attach: not supported for "ovs-dpdk", unknown otherwise; the calls made are exactly the host attach and, with IPAM, the allocate and conversion, none undone |
| AddProperties.AddReportedResult | userspace/userspace.go:155-182 | a successful ADD reports nothing without IPAM, and otherwise the non-empty IPAM records with every gateway cleared; its last call is the report, passing that result and the configuration's CNI version unchanged |
| AddProperties.AddSucceedsWhenNothingFails | userspace/userspace.go:79-182 | with both engines `vpp`, every collaborator succeeding and IPAM, when configured, returning records, ADD succeeds, reporting nothing without IPAM and the records with gateways cleared with it |
| AddProperties.AddErrorsExplained | userspace/userspace.go:67-180 | a load error arises exactly when decoding fails and carries its error; an engine error names a non-`vpp` engine of its role (not supported exactly for `ovs-dpdk`): the host engine, or the effective container engine after a successful host attach and IPAM stage |
| DelProperties.DelConfigLoadError | userspace/userspace.go:189-193 | a configuration that does not decode ends DEL with a load error and no calls |
| DelProperties.DelHostEngineRejected | userspace/userspace.go:201-210 | a host engine other than "vpp" ends DEL with no calls: not supported for "ovs-dpdk", unknown otherwise |
| DelProperties.DelContainerEngineRejected | userspace/userspace.go:219-235 | after a successful host detach, a container engine other than "vpp" fails DEL with only the host detach made, naming the non-empty container setting |
| DelProperties.DelFollowsPlan | userspace/userspace.go:201-268 | the calls of every DEL are a prefix of: host detach, container detach, IPAM release when configured, then namespace entry and link deletion when a namespace path is given; both detaches get the container ID and namespace entry gets the given path |
| DelProperties.DelStopsAtFirstFailure | userspace/userspace.go:201-268 | every call but the last succeeded; a collaborator error is the last step's own error; a failing step always ends DEL; a successful DEL saw no failure |
| DelProperties.DelReleasesIffIpamConfigured | userspace/userspace.go:241-246 | the IPAM release is called exactly when both detaches succeeded and the IPAM type is non-empty, with that type and the stdin bytes |
| DelProperties.DelLinkOnlyWithNetns | userspace/userspace.go:251-262 | link deletion is attempted exactly when all earlier steps succeeded, a namespace path is given and it could be entered; it targets the named interface |
| DelProperties.DelWithoutNetnsSucceeds | userspace/userspace.go:251-253 | with no namespace path, DEL succeeds once the detaches and the release did |
| DelProperties.DelLinkNotFoundIsSuccess | userspace/userspace.go:255-268 | a deleted or already-absent link ends DEL successfully; any other deletion error is returned |
| DelProperties.DelRepeatable | userspace/userspace.go:255-262 | a DEL that succeeded also succeeds when repeated against a namespace where the link is gone |
| DelProperties.DelErrorsExplained | userspace/userspace.go:189-235 | a load error arises exactly when decoding fails and carries its error; an engine error names a non-`vpp` engine of its role (not supported exactly for `ovs-dpdk`): the host engine, or the effective container engine after a successful host detach; DEL never ends with the no-address error |

## Left out

- JSON decoding in `loadNetConf`: the decoder is an oracle that yields a configuration with the four inspected fields (CNI version, host engine, container engine, IPAM type) or an error.
- The VPP dataplane work in `CniVppAddOnHost`, `CniVppAddOnContainer`, `CniVppDelFromHost` and `CniVppDelFromContainer`: foreign calls, modelled only by success or error. The recorded calls omit the `NetConf` argument, which is the same in every call of a command.
- `ipam.ExecAdd`, `ipam.ExecDel` and `current.NewResultFromResult`: process exec and library conversion, modelled as oracles. The conversion's records are given directly.
- `net.IP.String()` and `Mask.Size()`: each record's address text and prefix length (0..128) are given fields.
- `ns.WithNetNSPath`, `ip.DelLinkByNameAddr` and the IPv4 family: OS I/O. Only three answers are kept: entering the namespace fails, deletion fails, or "link not found" is distinguished from other deletion errors.
- The other parts of `current.Result` (its `Interfaces`, `Routes` and `DNS`): the reported result holds only the IP records, so what IPAM returns in those parts, and how it reaches `PrintResult`, is not modelled.
- `cnitypes.PrintResult`: output serialisation, modelled as a step that succeeds or fails. What it does with the nil result reported without IPAM is not part of this model.
- `runtime.LockOSThread` in `init`: thread affinity, a concurrency concern. `skel.PluginMain` and `main`: argument and stdio plumbing.
- Exact error-message text: errors are kinds carrying the role and engine name or the collaborator's error.
- IpSelect.ClearGateways: the slice of record pointers is modelled as an array of record values written in place, so aliasing between records is not modelled.
