/** The messages between agent and server. Error texts are represented by the reason they report. */
module Wire {
  import opened Wrappers
  import opened Selectors
  import opened Pki
  import SelectorParser

  const PROTOCOL_VERSION: u32 := 1

  datatype AgentRequest =
    | Handshake(version: u32, vmName: string)
    | CertRequest(version: u32, vmName: string, identity: string, csrPem: Pem<Csr>)

  datatype FrameError = FrameTooLarge(len: nat) | FrameTruncated | FrameNotJson

  datatype Refusal =
    | UnsupportedVersion(version: u32)
    | UnknownVm(vmName: string)
    | HandshakeCidMismatch(expected: u32, actual: u32)
    | BadSelector(workload: string, reason: SelectorParser.ParseError)
    | NotAuthorised(vmName: string, identity: string)
    | CidVerificationFailed
    | SigningFailed(cause: CaError)
    | BadFrame(frame: FrameError)
    | WriteFailed

  datatype AgentResponse =
    | HandshakeOk(workloads: map<string, WorkloadConfig>)
    | CertOk(certPem: Pem<Certificate>, caCertPem: Pem<Certificate>)
    | Error(message: Refusal)
}
