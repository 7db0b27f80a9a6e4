/** Certificate validation: the trust store built when the server opens,
    with its revocation-checking flags, and the single boolean verdict
    certificate_is_valid gives for a peer certificate. The chain
    verification itself is OpenSSL's; it appears here as a predicate
    `chainVerifies` supplied by the caller. */
module Validation {
  import opened Types

  datatype ValidationMethod = CvmDefault | CvmNone
  datatype RevocationMethod = CrvmLast | CrvmAll | CrvmNone

  /** A certificate revocation list, kept opaque. */
  datatype Crl = Crl(issuer: string, der: seq<bv8>)

  /** OpenSSL's X509_V_FLAG_CRL_CHECK: check the revocation status of the
      leaf certificate. */
  const CrlCheck: bv32 := 0x4
  /** OpenSSL's X509_V_FLAG_CRL_CHECK_ALL: check it for every certificate
      of the chain (only meaningful together with CrlCheck). */
  const CrlCheckAll: bv32 := 0x8

  /** The security part of the configuration. The optional external
      validator receives the certificate (and, in the source, the core). */
  datatype SecurityConfig = SecurityConfig(
    validation: ValidationMethod,
    revocation: RevocationMethod,
    authorities: seq<Cert>,
    revocationLists: seq<Crl>,
    validationCallback: Option<Cert -> bool>)

  /** The trust store: CA certificates, revocation lists, verify flags. */
  datatype Store = Store(authorities: seq<Cert>, revocationLists: seq<Crl>, flags: bv32)

  /** The verify flags the revocation method selects. Leaf-only sets the
      CRL check, full-chain adds the all-chain flag, none sets nothing. */
  function RevocationFlags(m: RevocationMethod): (flags: bv32)
    ensures flags & CrlCheck != 0 <==> !m.CrvmNone?
    ensures flags & CrlCheckAll != 0 <==> m.CrvmAll?
    ensures flags & !(CrlCheck | CrlCheckAll) == 0
  {
    match m
    case CrvmLast => CrlCheck
    case CrvmAll => CrlCheck | CrlCheckAll
    case CrvmNone => 0
  }

  /** Full-chain checking includes every flag of leaf-only checking, and
      is strictly more. */
  lemma LeafFlagsWithinChainFlags()
    ensures RevocationFlags(CrvmLast) & RevocationFlags(CrvmAll) == RevocationFlags(CrvmLast)
    ensures RevocationFlags(CrvmLast) != RevocationFlags(CrvmAll)
    ensures RevocationFlags(CrvmNone) & RevocationFlags(CrvmLast) == RevocationFlags(CrvmNone)
  {
  }

  /** The trust store open_server builds: only in chain-validation mode,
      holding every configured CA and revocation list, with the flags of
      the configured revocation method. In CvmNone mode no store exists
      and the revocation method is ignored. */
  function BuildStore(sec: SecurityConfig): (s: Option<Store>)
    ensures s.Some? <==> sec.validation.CvmDefault?
    ensures s.Some? ==> s.value.authorities == sec.authorities && s.value.revocationLists == sec.revocationLists
    ensures s.Some? ==> (s.value.flags & CrlCheck != 0 <==> !sec.revocation.CrvmNone?)
    ensures s.Some? ==> (s.value.flags & CrlCheckAll != 0 <==> sec.revocation.CrvmAll?)
    ensures s.Some? ==> s.value.flags & !(CrlCheck | CrlCheckAll) == 0
  {
    match sec.validation
    case CvmDefault => Some(Store(sec.authorities, sec.revocationLists, RevocationFlags(sec.revocation)))
    case CvmNone => None
  }

  /** certificate_is_valid. In chain mode a failed chain verification
      rejects, whatever the external validator would say; otherwise the
      external validator, when configured, decides; without one the
      certificate is accepted. */
  function CertificateIsValid(sec: SecurityConfig, chainVerifies: Cert -> bool, cert: Cert): (valid: bool)
    ensures sec.validation.CvmDefault? && !chainVerifies(cert) ==> !valid
    ensures sec.validationCallback.None? ==> (valid <==> sec.validation.CvmNone? || chainVerifies(cert))
    ensures sec.validationCallback.Some? && (sec.validation.CvmNone? || chainVerifies(cert))
      ==> valid == sec.validationCallback.value(cert)
  {
    if sec.validation.CvmDefault? && !chainVerifies(cert) then
      false
    else if sec.validationCallback.Some? then
      sec.validationCallback.value(cert)
    else
      true
  }
}
