/** Values shared by the node's control-plane core: peer endpoints,
    certificates, fingerprints and the outbound requests the core issues
    to the secure channel service. */
module Types {

  /** An IP address (4 octets for IPv4, 16 for IPv6). */
  datatype Address = Address(octets: seq<bv8>)

  newtype Port = p: int | 0 <= p < 0x1_0000

  /** A transport endpoint: address and UDP port. */
  datatype Endpoint = Endpoint(address: Address, port: Port)

  /** An X.509 certificate, kept opaque: only its identity matters here. */
  datatype Cert = Cert(subject: string, der: seq<bv8>)

  /** A certificate fingerprint, as used by contact requests. */
  datatype Hash = Hash(digest: seq<bv8>)

  datatype Option<T> = None | Some(value: T)

  /** The error codes the core distinguishes on completions: success,
      asio's operation_aborted, fscp's hello_request_timed_out, and any
      other failure. */
  datatype ErrorCode = NoError | OperationAborted | HelloRequestTimedOut | OtherError(code: int)

  /** Outbound requests the core hands to the secure channel service
      (async_introduce_to, async_contact, async_request_session), and
      the dropping of a datagram nobody handles. */
  datatype Action =
    | Introduce(target: Endpoint)
    | Contact(target: Endpoint)
    | RequestSession(target: Endpoint)
    | Drop

  /** The host an action is aimed at, if any. */
  function TargetOf(a: Action): Option<Address>
  {
    match a
    case Introduce(t) => Some(t.address)
    case Contact(t) => Some(t.address)
    case RequestSession(t) => Some(t.address)
    case Drop => None
  }

  /** Membership in the configured never-contact list. The range matching
      behind it (has_address) is abstracted as membership in a set of
      addresses. */
  predicate IsBanned(neverContact: set<Address>, a: Address)
  {
    a in neverContact
  }
}
