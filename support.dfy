/**
 * `SagerSupportClass`, the shim the embedded engine calls back into. Only
 * `protect` decides anything: it forwards the socket to the VPN service when
 * there is one, after Kotlin's `Long.toInt()` truncation.
 */
module Support {
  import opened Wrappers

  const IntRange: int := 0x1_0000_0000
  const IntMin: int := -0x8000_0000
  const IntMax: int := 0x7FFF_FFFF

  /** `Long.toInt()`: keep the low 32 bits and read them as a two's-complement `Int`. */
  function ToInt32(l: int): (r: int)
    ensures IntMin <= r <= IntMax
    ensures (r - l) % IntRange == 0
    ensures IntMin <= l <= IntMax ==> r == l
  {
    (l - IntMin) % IntRange + IntMin
  }

  /** The VPN service's `protect(fd: Int)`. */
  datatype VpnService = VpnService(protectFd: int -> bool)

  datatype SagerSupportClass = SagerSupportClass(service: Option<VpnService>)
  {
    /** Protect a socket: always granted without a VPN service, else the service decides. */
    function Protect(l: int): (ok: bool)
      ensures service.None? ==> ok
      ensures service.Some? ==>
                exists fd :: IntMin <= fd <= IntMax && (fd - l) % IntRange == 0 && ok == service.value.protectFd(fd)
      ensures service.Some? && IntMin <= l <= IntMax ==> ok == service.value.protectFd(l)
    {
      match service
      case None => true
      case Some(vpn) => vpn.protectFd(ToInt32(l))
    }
  }
}
