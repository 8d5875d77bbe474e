/**
 Keys, signing requests and certificates as records: what the CA copies from a request, what it overwrites, and
 what a peer later reads from the result. A private key is known by a number and its public half by the same number.
 */
module Pki {
  import opened Wrappers

  /** Clock ticks (nanoseconds) in a second. Certificates carry whole seconds. */
  const TICKS := 1_000_000_000

  datatype PrivateKey = PrivateKey(id: nat)
  datatype PublicKey = PublicKey(id: nat)

  function PublicHalf(k: PrivateKey): PublicKey {
    PublicKey(k.id)
  }

  /** PEM text either decodes to a value or does not. */
  datatype Pem<+T> = Garbled | Pem(value: T)

  datatype DnType = CommonName | OrganizationName
  datatype DnEntry = DnEntry(kind: DnType, value: string)

  predicate OnePerKind(dn: seq<DnEntry>) {
    forall i, j :: 0 <= i < j < |dn| ==> dn[i].kind != dn[j].kind
  }

  /** A name as the library keeps it, in requests it parsed as well: at most one entry of a type. */
  type DistinguishedName = dn: seq<DnEntry> | OnePerKind(dn) witness []

  /** A parsed signing request carries a subject and a public key (section 4.1 of RFC 2986). */
  datatype Csr = Csr(subject: DistinguishedName, publicKey: PublicKey)

  datatype KeyUsage = DigitalSignature
  datatype ExtendedKeyUsage = ServerAuth | ClientAuth
  datatype San = DnsName(name: string) | IpAddress(octets: seq<nat>)

  /** Both validity bounds are inclusive (section 4.1.2.5 of RFC 5280). */
  datatype Certificate = Certificate(
    subject: DistinguishedName, publicKey: PublicKey,
    keyUsages: seq<KeyUsage>, extendedKeyUsages: seq<ExtendedKeyUsage>, sans: seq<San>,
    notBefore: nat, notAfter: nat, signer: PublicKey)

  datatype CertificateAuthority = CertificateAuthority(key: PrivateKey, certPem: Pem<Certificate>, keyLoads: bool)

  datatype CaError = BadCsr | BadIdentity | BadIpAddress | CaUnavailable

  datatype SigningRequest = SigningRequest(
    csrPem: Pem<Csr>, identity: string, vmName: string, cid: u32, ip: Option<string>, validitySeconds: u32)

  type IpParser = string -> Option<seq<nat>>

  /** Pushing an attribute replaces one of the same type, or appends. */
  function Push(dn: DistinguishedName, kind: DnType, value: string): (r: DistinguishedName)
    ensures forall i :: 0 <= i < |r| ==> r[i].kind == kind || exists j :: 0 <= j < |dn| && r[i].kind == dn[j].kind
  {
    if dn == [] then [DnEntry(kind, value)]
    else if dn[0].kind == kind then [DnEntry(kind, value)] + dn[1..]
    else [dn[0]] + Push(dn[1..], kind, value)
  }

  function FirstCommonName(dn: DistinguishedName): Option<string> {
    if dn == [] then None
    else if dn[0].kind == CommonName then Some(dn[0].value)
    else FirstCommonName(dn[1..])
  }

  /** The common name of a subject is that of its entry of this type; entries of other types are passed over. */
  lemma {:induction false} FirstCommonNameIff(dn: DistinguishedName, v: string)
    ensures FirstCommonName(dn) == Some(v) <==> DnEntry(CommonName, v) in dn
    ensures FirstCommonName(dn) == None <==> forall e :: e in dn ==> e.kind != CommonName
  {
    if dn != [] {
      FirstCommonNameIff(dn[1..], v);
      assert dn == [dn[0]] + dn[1..];
    }
  }

  /** Pushing an attribute leaves it with the pushed value, and every other type with the value it had. */
  lemma {:induction false} PushIff(dn: DistinguishedName, kind: DnType, value: string, e: DnEntry)
    ensures e in Push(dn, kind, value) <==> if e.kind == kind then e.value == value else e in dn
  {
    if dn != [] {
      assert dn == [dn[0]] + dn[1..];
      if dn[0].kind == kind {
        assert forall x :: x in dn[1..] ==> x.kind != kind;
      } else {
        PushIff(dn[1..], kind, value, e);
      }
    }
  }

  // ---- The agent's request ----

  datatype GeneratedCsr = GeneratedCsr(keyPem: PrivateKey, csrPem: Pem<Csr>)

  function AgentCsr(identity: string, key: PrivateKey): Csr {
    Csr([DnEntry(CommonName, identity), DnEntry(OrganizationName, "authn-scope")], PublicHalf(key))
  }

  /** `generate_csr`, given the key pair the generator produced, if any. */
  method GenerateCsr(identity: string, generated: Option<PrivateKey>) returns (r: Result<GeneratedCsr, ()>)
    ensures r.Ok? <==> generated.Some?
    ensures r.Ok? ==> r.value == GeneratedCsr(generated.value, Pem(AgentCsr(identity, generated.value)))
    ensures r.Ok? ==> FirstCommonName(r.value.csrPem.value.subject) == Some(identity)
    ensures r.Ok? ==> r.value.csrPem.value.publicKey == PublicHalf(r.value.keyPem)
  {
    if generated.None? {
      return Err(());
    }
    var dn: DistinguishedName := [];
    dn := Push(dn, CommonName, identity);
    dn := Push(dn, OrganizationName, "authn-scope");
    assert dn == AgentCsr(identity, generated.value).subject by {
      var first := [DnEntry(CommonName, identity)];
      assert first[1..] == [];
      assert Push(first[1..], OrganizationName, "authn-scope") == [DnEntry(OrganizationName, "authn-scope")];
    }
    return Ok(GeneratedCsr(generated.value, Pem(Csr(dn, PublicHalf(generated.value)))));
  }

  // ---- The CA's signature ----

  /** The parameters parsed from a request, which the signer overwrites field by field. */
  class CertificateParams {
    var subject: DistinguishedName
    var publicKey: PublicKey
    var keyUsages: seq<KeyUsage>
    var extendedKeyUsages: seq<ExtendedKeyUsage>
    var sans: seq<San>
    var notBefore: nat
    var notAfter: nat

    constructor FromCsr(csr: Csr)
      ensures subject == csr.subject && publicKey == csr.publicKey
    {
      subject, publicKey := csr.subject, csr.publicKey;
    }

    function SignedBy(ca: CertificateAuthority): Certificate
      reads this
    {
      Certificate(subject, publicKey, keyUsages, extendedKeyUsages, sans, notBefore, notAfter, PublicHalf(ca.key))
    }
  }

  predicate IsAscii(s: string) {
    forall i :: 0 <= i < |s| ==> s[i] as int < 128
  }

  predicate IpUsable(ip: Option<string>, parseIp: IpParser) {
    ip.Some? ==> parseIp(ip.value).Some?
  }

  /** What makes signing a readable request possible. */
  predicate Signable(ca: CertificateAuthority, identity: string, ip: Option<string>, parseIp: IpParser) {
    IsAscii(identity) && IpUsable(ip, parseIp) && ca.certPem.Pem? && ca.keyLoads
  }

  /** The first thing signing trips over, in the order it looks. */
  function SigningFault(ca: CertificateAuthority, req: SigningRequest, parseIp: IpParser): (e: Option<CaError>)
    ensures e.None? <==> req.csrPem.Pem? && Signable(ca, req.identity, req.ip, parseIp)
  {
    if req.csrPem.Garbled? then Some(BadCsr)
    else if !IsAscii(req.identity) then Some(BadIdentity)
    else if !IpUsable(req.ip, parseIp) then Some(BadIpAddress)
    else if ca.certPem.Garbled? || !ca.keyLoads then Some(CaUnavailable)
    else None
  }

  /** Signing fails for exactly the first of these reasons, in this order. */
  lemma SigningFaultMeaning(ca: CertificateAuthority, req: SigningRequest, parseIp: IpParser)
    ensures var e := SigningFault(ca, req, parseIp);
            var ascii := forall c :: c in req.identity ==> c as int <= 127;
            var address := req.ip == None || parseIp(req.ip.value) != None;
            && (e == Some(BadCsr) <==> req.csrPem == Garbled)
            && (e == Some(BadIdentity) <==> req.csrPem != Garbled && !ascii)
            && (e == Some(BadIpAddress) <==> req.csrPem != Garbled && ascii && !address)
            && (e == Some(CaUnavailable) <==>
                  req.csrPem != Garbled && ascii && address && (ca.certPem == Garbled || !ca.keyLoads))
            && (e == None <==> req.csrPem != Garbled && ascii && address && ca.certPem != Garbled && ca.keyLoads)
  {
    var s := req.identity;
    assert forall i :: 0 <= i < |s| ==> s[i] in s;
    assert IsAscii(s) <==> forall c :: c in s ==> c as int <= 127;
  }

  /** The certificate for a readable request: subject and key are the requester's, all else is the CA's. */
  predicate Issues(ca: CertificateAuthority, req: SigningRequest, now: nat, parseIp: IpParser, cert: Certificate) {
    && req.csrPem.Pem?
    && cert.subject == req.csrPem.value.subject && cert.publicKey == req.csrPem.value.publicKey
    && cert.keyUsages == [DigitalSignature] && cert.extendedKeyUsages == [ServerAuth, ClientAuth]
    && cert.sans == [DnsName(req.identity)] + (if req.ip.Some? && parseIp(req.ip.value).Some?
                                               then [IpAddress(parseIp(req.ip.value).value)] else [])
    && cert.notBefore == now / TICKS && cert.notAfter == cert.notBefore + req.validitySeconds
    && cert.signer == PublicHalf(ca.key)
  }

  method SignCsr(ca: CertificateAuthority, req: SigningRequest, now: nat, parseIp: IpParser)
    returns (r: Result<Pem<Certificate>, CaError>)
    ensures match SigningFault(ca, req, parseIp)
            case Some(e) => r == Err(e)
            case None => r.Ok? && r.value.Pem? && Issues(ca, req, now, parseIp, r.value.value)
  {
    if req.csrPem.Garbled? {
      return Err(BadCsr);
    }
    var params := new CertificateParams.FromCsr(req.csrPem.value);
    params.keyUsages := [DigitalSignature];
    params.extendedKeyUsages := [ServerAuth, ClientAuth];
    if !IsAscii(req.identity) {
      return Err(BadIdentity);
    }
    var sans := [DnsName(req.identity)];
    if req.ip.Some? {
      var ip := parseIp(req.ip.value);
      if ip.None? {
        return Err(BadIpAddress);
      }
      sans := sans + [IpAddress(ip.value)];
    }
    params.sans := sans;
    params.notBefore := now / TICKS;
    params.notAfter := (now + req.validitySeconds * TICKS) / TICKS;
    WholeSecondsLater(now, req.validitySeconds);
    if ca.certPem.Garbled? || !ca.keyLoads {
      return Err(CaUnavailable);
    }
    return Ok(Pem(params.SignedBy(ca)));
  }

  lemma WholeSecondsLater(now: nat, seconds: nat)
    ensures (now + seconds * TICKS) / TICKS == now / 1_000_000_000 + seconds
  {}

  /**
   In plain terms, what is in an issued certificate: the identity as the only DNS name, the VM's address, if it has one,
   as the only IP address, signature use, both roles, and a validity that starts with this second.
   */
  lemma IssuedCertificate(ca: CertificateAuthority, req: SigningRequest, now: nat, parseIp: IpParser, cert: Certificate)
    requires Signable(ca, req.identity, req.ip, parseIp) && Issues(ca, req, now, parseIp, cert)
    ensures forall name :: DnsName(name) in cert.sans <==> name == req.identity
    ensures forall octets ::
              IpAddress(octets) in cert.sans <==> exists ip :: req.ip == Some(ip) && parseIp(ip) == Some(octets)
    ensures cert.keyUsages == [DigitalSignature]
    ensures ServerAuth in cert.extendedKeyUsages && ClientAuth in cert.extendedKeyUsages
    ensures cert.notBefore * 1_000_000_000 <= now < (cert.notBefore + 1) * 1_000_000_000
    ensures cert.notAfter - cert.notBefore == req.validitySeconds
    ensures cert.publicKey == req.csrPem.value.publicKey && cert.subject == req.csrPem.value.subject
  {
    if req.ip.Some? {
      var ip := req.ip.value;
      assert parseIp(ip).Some?;
    }
  }

  // ---- Reading certificates ----

  /** `get_cert_validity_seconds(..).unwrap_or(600)`. */
  function ValidityOrDefault(certPem: Pem<Certificate>): nat {
    match certPem
    case Garbled => 600
    case Pem(c) => if c.notAfter > c.notBefore then c.notAfter - c.notBefore else 0
  }

  /** A readable certificate lives from its first to its last second; an unreadable one counts as ten minutes. */
  lemma ValidityMeaning(certPem: Pem<Certificate>)
    ensures match certPem
            case Garbled => ValidityOrDefault(certPem) == 600
            case Pem(c) =>
              && (c.notAfter >= c.notBefore ==> c.notBefore + ValidityOrDefault(certPem) == c.notAfter)
              && (c.notAfter < c.notBefore ==> ValidityOrDefault(certPem) == 0)
  {}

  datatype EvalError = CaUnreadable | PeerUnreadable | BadSignature | NoCommonName

  /** The evaluator: peer certificate signed by this CA, identity is its first common name. */
  function Evaluate(peer: Pem<Certificate>, ca: Pem<Certificate>): Result<string, EvalError> {
    if ca.Garbled? then Err(CaUnreadable)
    else if peer.Garbled? then Err(PeerUnreadable)
    else if peer.value.signer != ca.value.publicKey then Err(BadSignature)
    else match FirstCommonName(peer.value.subject)
      case None => Err(NoCommonName)
      case Some(cn) => Ok(cn)
  }

  /** The evaluator's four refusals, each for exactly its reason, and the identity otherwise. */
  lemma EvaluateMeaning(peer: Pem<Certificate>, ca: Pem<Certificate>, identity: string)
    ensures Evaluate(peer, ca) == Err(CaUnreadable) <==> ca.Garbled?
    ensures Evaluate(peer, ca) == Err(PeerUnreadable) <==> ca.Pem? && peer.Garbled?
    ensures Evaluate(peer, ca) == Err(BadSignature) <==>
              ca.Pem? && peer.Pem? && peer.value.signer != ca.value.publicKey
    ensures Evaluate(peer, ca) == Err(NoCommonName) <==>
              && ca.Pem? && peer.Pem? && peer.value.signer == ca.value.publicKey
              && forall e :: e in peer.value.subject ==> e.kind != CommonName
    ensures Evaluate(peer, ca) == Ok(identity) <==>
              && ca.Pem? && peer.Pem? && peer.value.signer == ca.value.publicKey
              && DnEntry(CommonName, identity) in peer.value.subject
  {
    if peer.Pem? {
      FirstCommonNameIff(peer.value.subject, identity);
    }
    hide FirstCommonName;
  }

  /** The CA's certificate holds the public half of its key. Nothing compares the two when a CA is loaded. */
  predicate Consistent(ca: CertificateAuthority) {
    ca.certPem.Pem? ==> ca.certPem.value.publicKey == PublicHalf(ca.key)
  }

  /**
   A signed certificate evaluates to the requested identity exactly when the request's subject already named it and
   the CA's certificate and key belong together; if they do not, nothing it signs evaluates at all.
   */
  lemma EvaluatedIdentityIff(ca: CertificateAuthority, req: SigningRequest, now: nat, parseIp: IpParser,
                             cert: Certificate)
    requires Signable(ca, req.identity, req.ip, parseIp) && Issues(ca, req, now, parseIp, cert)
    ensures Evaluate(Pem(cert), ca.certPem) == Ok(req.identity)
            <==> FirstCommonName(req.csrPem.value.subject) == Some(req.identity) && Consistent(ca)
    ensures !Consistent(ca) <==> Evaluate(Pem(cert), ca.certPem) == Err(BadSignature)
    ensures cert.sans[0] == DnsName(req.identity)
  {}

  /** The signer does not bind the subject: a default request signed for "peer-service" evaluates to another name. */
  lemma SignerKeepsForeignSubject(ca: CertificateAuthority, key: PublicKey, ip: Option<string>, now: nat,
                                  parseIp: IpParser, cert: Certificate)
    requires Signable(ca, "peer-service", ip, parseIp)
    requires var csr := Csr([DnEntry(CommonName, "rcgen self signed cert")], key);
             Issues(ca, SigningRequest(Pem(csr), "peer-service", "peer-vm", 10, ip, 3600), now, parseIp, cert)
    ensures Evaluate(Pem(cert), ca.certPem) == Ok("rcgen self signed cert") <==> Consistent(ca)
    ensures Evaluate(Pem(cert), ca.certPem) != Ok("peer-service")
  {
    assert "rcgen self signed cert"[0] != "peer-service"[0];
  }
}
