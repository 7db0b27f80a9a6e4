/** The callbacks the core registers with the secure channel service.
    Each decides on the configuration flags, the never-contact list and
    certificate validity, returns its verdict to the transport (where the
    callback has one) and issues at most one outbound request, given here
    as a list of actions. Logging is not modelled. */
module Admission {
  import opened Types
  import opened Validation

  /** The tap adapter type, which selects bridged (tap) or routed (tun)
      forwarding. */
  datatype TapType = Tap | Tun

  /** The part of the configuration the callbacks read. */
  datatype Config = Config(
    neverContact: set<Address>,
    acceptContactRequests: bool,
    acceptContacts: bool,
    security: SecurityConfig,
    tapType: TapType)

  /** A cipher algorithm identifier, as offered in session requests. */
  datatype CipherAlgorithm = CipherAlgorithm(id: int)

  /** What a callback returns to the transport, and what it asks of it. */
  datatype Reply = Reply(accept: bool, actions: seq<Action>)

  /** do_handle_hello_received. A banned sender is refused whatever the
      transport suggests; otherwise the suggestion stands. An accepted
      hello is answered with an introduction to the sender, and only then. */
  function HandleHello(cfg: Config, sender: Endpoint, defaultAccept: bool): (r: Reply)
    ensures IsBanned(cfg.neverContact, sender.address) ==> !r.accept
    ensures !IsBanned(cfg.neverContact, sender.address) ==> r.accept == defaultAccept
    ensures r.actions == (if r.accept then [Introduce(sender)] else [])
  {
    var accept := defaultAccept && !IsBanned(cfg.neverContact, sender.address);
    Reply(accept, if accept then [Introduce(sender)] else [])
  }

  /** do_handle_contact_request_received. Accepted exactly when contact
      requests are enabled; no request is issued. The sender is not
      checked against the never-contact list. */
  function HandleContactRequest(cfg: Config, sender: Endpoint, cert: Cert, hash: Hash, answer: Endpoint): (r: Reply)
    ensures r.accept <==> cfg.acceptContactRequests
    ensures r.actions == []
  {
    Reply(cfg.acceptContactRequests, [])
  }

  /** do_handle_contact_received: a peer announces that the host with
      fingerprint `hash` is at `answer`. Nothing happens unless contacts
      are accepted; a banned address is never contacted; otherwise exactly
      one contact toward `answer` is issued. */
  function HandleContactReceived(cfg: Config, sender: Endpoint, hash: Hash, answer: Endpoint): (actions: seq<Action>)
    ensures !cfg.acceptContacts ==> actions == []
    ensures IsBanned(cfg.neverContact, answer.address) ==> actions == []
    ensures cfg.acceptContacts && !IsBanned(cfg.neverContact, answer.address) ==> actions == [Contact(answer)]
  {
    if cfg.acceptContacts && !IsBanned(cfg.neverContact, answer.address) then [Contact(answer)] else []
  }

  /** do_handle_presentation_received. A banned sender is refused; else the
      presentation is accepted exactly when both the signature and the
      cipherment certificates are valid, and a session is requested from
      the sender exactly when it is accepted. */
  function HandlePresentation(cfg: Config, chainVerifies: Cert -> bool, sender: Endpoint,
                              sigCert: Cert, encCert: Cert, isNew: bool): (r: Reply)
    ensures IsBanned(cfg.neverContact, sender.address) ==> !r.accept
    ensures !IsBanned(cfg.neverContact, sender.address) ==>
      (r.accept <==> CertificateIsValid(cfg.security, chainVerifies, sigCert)
                     && CertificateIsValid(cfg.security, chainVerifies, encCert))
    ensures r.actions == (if r.accept then [RequestSession(sender)] else [])
  {
    if IsBanned(cfg.neverContact, sender.address) then
      Reply(false, [])
    else if CertificateIsValid(cfg.security, chainVerifies, sigCert)
         && CertificateIsValid(cfg.security, chainVerifies, encCert) then
      Reply(true, [RequestSession(sender)])
    else
      Reply(false, [])
  }

  /** do_handle_session_request_received: the transport's suggestion is
      returned unchanged, for banned senders too, and nothing is issued. */
  function HandleSessionRequest(cfg: Config, sender: Endpoint, capabilities: seq<CipherAlgorithm>,
                                defaultAccept: bool): (r: Reply)
    ensures r.accept == defaultAccept && r.actions == []
  {
    Reply(defaultAccept, [])
  }

  /** do_handle_session_received: as for session requests. */
  function HandleSession(cfg: Config, sender: Endpoint, algorithm: CipherAlgorithm, defaultAccept: bool): (r: Reply)
    ensures r.accept == defaultAccept && r.actions == []
  {
    Reply(defaultAccept, [])
  }

  /** do_handle_contact: the completion of a greet toward `address`. A
      hello response is followed by an introduction to that address; a
      timeout or any other error issues nothing. */
  function HandleGreetResult(address: Endpoint, ec: ErrorCode): (actions: seq<Action>)
    ensures ec == NoError ==> actions == [Introduce(address)]
    ensures ec != NoError ==> actions == []
  {
    if ec == NoError then [Introduce(address)] else []
  }

  /** The fscp data channels the core knows: 0 carries frames or packets,
      1 carries control messages. */
  const FrameChannel: nat := 0
  const MessageChannel: nat := 1

  /** do_handle_data_received. Channels 0 and 1 are consumed (their
      forwarding and message parsing are empty stubs, whether tap or tun);
      data on any other channel is dropped. */
  function HandleData(cfg: Config, sender: Endpoint, channel: nat, data: seq<bv8>): (actions: seq<Action>)
    ensures channel == FrameChannel || channel == MessageChannel ==> actions == []
    ensures channel != FrameChannel && channel != MessageChannel ==> actions == [Drop]
  {
    if channel == FrameChannel then
      []
    else if channel == MessageChannel then
      []
    else
      [Drop]
  }

  /** The inbound events the transport delivers to the core. */
  datatype Event =
    | Hello(sender: Endpoint, defaultAccept: bool)
    | ContactRequest(sender: Endpoint, cert: Cert, hash: Hash, answer: Endpoint)
    | ContactReceived(sender: Endpoint, hash: Hash, answer: Endpoint)
    | Presentation(sender: Endpoint, sigCert: Cert, encCert: Cert, isNew: bool)
    | SessionRequest(sender: Endpoint, capabilities: seq<CipherAlgorithm>, defaultAccept: bool)
    | Session(sender: Endpoint, algorithm: CipherAlgorithm, defaultAccept: bool)
    | Data(sender: Endpoint, channel: nat, data: seq<bv8>)

  /** The requests an inbound event makes the core issue. */
  function ActionsOf(cfg: Config, chainVerifies: Cert -> bool, e: Event): seq<Action>
  {
    match e
    case Hello(s, d) => HandleHello(cfg, s, d).actions
    case ContactRequest(s, c, h, a) => HandleContactRequest(cfg, s, c, h, a).actions
    case ContactReceived(s, h, a) => HandleContactReceived(cfg, s, h, a)
    case Presentation(s, sc, ec, n) => HandlePresentation(cfg, chainVerifies, s, sc, ec, n).actions
    case SessionRequest(s, caps, d) => HandleSessionRequest(cfg, s, caps, d).actions
    case Session(s, alg, d) => HandleSession(cfg, s, alg, d).actions
    case Data(s, ch, data) => HandleData(cfg, s, ch, data)
  }

  /** No inbound event makes the core introduce itself to, contact or
      request a session from a banned host, and every event issues at
      most one request. */
  lemma BannedNeverTargeted(cfg: Config, chainVerifies: Cert -> bool, e: Event)
    ensures |ActionsOf(cfg, chainVerifies, e)| <= 1
    ensures forall a :: a in ActionsOf(cfg, chainVerifies, e) && TargetOf(a).Some? ==>
      !IsBanned(cfg.neverContact, TargetOf(a).value)
  {
  }
}
