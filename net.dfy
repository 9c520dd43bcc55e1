/** IP addresses, the tunnel's fixed addresses, and the library routines that read and print them. */
module Net {
  import opened Wrappers

  newtype byte = x: int | 0 <= x < 0x100
  newtype u16 = x: int | 0 <= x < 0x1_0000

  /** The eight 16-bit groups of an IPv6 address. */
  type Segments = s: seq<u16> | |s| == 8 witness [0, 0, 0, 0, 0, 0, 0, 0]

  /** Rust's `std::net::IpAddr`. */
  datatype IpAddr = V4(a: byte, b: byte, c: byte, d: byte) | V6(segments: Segments)

  /** The tunnel device's own address, netmask, gateway and default resolver. */
  const TUN_IPV4: IpAddr := V4(10, 0, 0, 33)
  const TUN_NETMASK: IpAddr := V4(255, 255, 255, 0)
  const TUN_GATEWAY: IpAddr := V4(10, 0, 0, 1)
  const TUN_DNS: IpAddr := V4(8, 8, 8, 8)

  /** `Ipv4Addr::UNSPECIFIED`, the destination and mask of a default route. */
  const UNSPECIFIED: IpAddr := V4(0, 0, 0, 0)

  /**
   * The standard-library routines the route configuration relies on, left
   * uninterpreted: `IpAddr::from_str`, the `Display` text of an address,
   * `String::from_utf8_lossy` and `str::lines`.
   */
  datatype Lib = Lib(
    parseIp: string -> Option<IpAddr>,
    showIp: IpAddr -> string,
    decodeLossy: seq<byte> -> string,
    lines: string -> seq<string>)
}
