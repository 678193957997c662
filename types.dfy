/**
 * The values the plugin's orchestration inspects: the parts of the network
 * configuration it reads, the single-address record handed to the engines,
 * the per-address records of an IPAM result and the command arguments.
 */
module Types {
  import opened Wrappers

  /** Go's `byte`. */
  type Byte = n: int | 0 <= n < 256

  /**
   * The text of an IP address as `net.IP.String()` renders it. That
   * rendering is never empty (a nil address prints as "<nil>").
   */
  type IPText = s: string | s != "" witness "0.0.0.0"

  /** A prefix length as `Mask.Size()` reports it. */
  type PrefixLen = n: int | 0 <= n <= 128

  /** Go's conversion `byte(n)`: the low eight bits of `n`. */
  function ToByte(n: int): (b: Byte)
    ensures 0 <= n < 256 ==> b == n
  {
    n % 256
  }

  /** `HostConf` / `ContainerConf`: only the engine name is inspected. */
  datatype EngineConf = EngineConf(engine: string)

  /** `IPAM`: only the plugin type is inspected; "" means no IPAM. */
  datatype IpamConf = IpamConf(ipamType: string)

  /** The four fields of `NetConf` the orchestration reads. */
  datatype NetConf = NetConf(
    cniVersion: string,
    hostConf: EngineConf,
    containerConf: EngineConf,
    ipam: IpamConf)

  /** `IPDataType`: the single address passed to the engines. */
  datatype IPData = IPData(isIpv6: Byte, address: string, addressLength: Byte)

  /** The zero value of `IPDataType`: no address assigned. */
  const ZeroIpData: IPData := IPData(0, "", 0)

  /**
   * One record of an IPAM result (`current.IPConfig`): its version tag,
   * the optional interface index, the address with its prefix length and
   * the optional gateway.
   */
  datatype IPConfig = IPConfig(
    version: string,
    iface: Option<int>,
    address: IPText,
    prefixLen: PrefixLen,
    gateway: Option<IPText>)

  /** The arguments of one plugin invocation (`skel.CmdArgs`). */
  datatype CmdArgs = CmdArgs(
    containerID: string,
    netns: string,
    ifName: string,
    stdinData: seq<Byte>)
}
