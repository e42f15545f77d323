/** The errors the ACME v2 helpers raise or let through. */
module AcmeErrors {

  import opened Wrappers

  /** An error raised inside the `acme` library (a problem document from the
      CA or a transport failure); its contents are opaque to this model. */
  datatype CaError = CaError(kind: string, detail: string)

  datatype ApiError =
    /** select_http01_chall: no authorization offers an HTTP-01 challenge. */
    | ChallengeNotOffered
    /** perform_http01: polling ran past its deadline (an AppException). */
    | CertificateTimeout
    /** get_account_key: the key file exists but does not parse as a PEM private key. */
    | KeyNotLoadable
    /** ensure_account_exists: the account file exists but does not decode. */
    | AccountDataNotLoadable
    /** Any other error of the `acme` library, propagated unchanged. */
    | Ca(error: CaError)

  const NotOfferedMessage := "HTTP-01 challenge was not offered by the CA server."

  /** The AppException text for a certificate timeout ("certificate retrieval timed out"). */
  const TimeoutMessage := "证书获取超时"

  /** The message text of the exceptions the helpers raise themselves; the
      other errors carry the message of the library or parser that raised them. */
  function RaisedMessage(e: ApiError): Option<string>
  {
    match e
    case ChallengeNotOffered => Some(NotOfferedMessage)
    case CertificateTimeout => Some(TimeoutMessage)
    case _ => None
  }
}
