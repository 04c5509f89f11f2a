/** Account state read from the ledger, as far as the modelled decisions look at it. */
module Onchain {
  import opened Basics

  const U16_MODULUS := 0x1_0000

  type U16 = x: int | 0 <= x < U16_MODULUS

  /** Machine addition of two 16-bit counters: the sum wraps. */
  function AddU16(a: U16, b: U16): U16 {
    (a + b) % U16_MODULUS
  }

  datatype Network = Network(ip: Ip, prefixLen: nat)

  const DEFAULT_NETWORK := Network(UNSPECIFIED, 0)

  datatype Interface = Interface(userTunnelEndpoint: bool, ipNet: Network)

  datatype DeviceStatus = Pending | Activated | Drained | Deleting

  datatype DeviceType = Edge | Transit | Hybrid

  datatype Device = Device(
    code: Code,
    status: DeviceStatus,
    deviceType: DeviceType,
    publicIp: Ip,
    interfaces: seq<Interface>,
    usersCount: U16,
    reservedSeats: U16,
    maxUsers: U16)
  {
    predicate IsEligibleForProvisioning() {
      && status == Activated
      && (deviceType == Edge || deviceType == Hybrid)
      && maxUsers > 0 && AddU16(usersCount, reservedSeats) < maxUsers
    }
  }

  datatype User = User(
    owner: Pubkey,
    userType: UserType,
    devicePk: Pubkey,
    clientIp: Ip,
    tunnelId: U16,
    tunnelEndpoint: Ip,
    publishers: seq<Pubkey>,
    subscribers: seq<Pubkey>)
  {
    predicate HasUnicastTunnel() {
      tunnelId != 0
    }

    predicate HasTunnelEndpoint() {
      tunnelEndpoint != UNSPECIFIED
    }
  }
}
