/**
 Building an OPNsense client: what is looked up for it, and the condition reason under which a failure is reported.
 */
module Connection {
  import opened Kube

  /** The data of the credentials Secret; a missing entry is empty. */
  datatype Credentials = Credentials(apiKey: string, apiSecret: string)

  /** What the lookups yield: whether the connection is ready, the Secret, and whether the TLS settings are usable. */
  datatype Setup = Setup(connection: Option<bool>, credentials: Option<Credentials>, tls: bool)

  predicate Complete(c: Credentials) {
    c.apiKey != "" && c.apiSecret != ""
  }

  predicate Ready(s: Setup) {
    s.connection.Some? && s.connection.value
  }

  /** Everything that a client needs is there. */
  predicate Usable(s: Setup) {
    && Ready(s)
    && s.credentials.Some? && Complete(s.credentials.value)
    && s.tls
  }

  /** `reason` names the first thing that is missing or wrong. */
  predicate Explains(reason: string, s: Setup) {
    match reason
    case "ConnectionNotFound" => s.connection.None?
    case "ConnectionNotReady" => s.connection.Some? && !Ready(s)
    case "CredentialsNotFound" => Ready(s) && s.credentials.None?
    case "CredentialsInvalid" =>
      Ready(s) && s.credentials.Some? && !Complete(s.credentials.value)
    case "TLSConfigFailed" =>
      Ready(s) && s.credentials.Some? && Complete(s.credentials.value) && !s.tls
    case _ => false
  }

  /** A setup that is not usable has exactly one explanation, and a usable one has none. */
  lemma ExactlyOneExplanation(s: Setup)
    ensures (exists reason :: Explains(reason, s)) <==> !Usable(s)
    ensures forall r1, r2 | Explains(r1, s) && Explains(r2, s) :: r1 == r2
  {
    if !Usable(s) {
      var reason :=
        if s.connection.None? then "ConnectionNotFound"
        else if !Ready(s) then "ConnectionNotReady"
        else if s.credentials.None? then "CredentialsNotFound"
        else if !Complete(s.credentials.value) then "CredentialsInvalid"
        else "TLSConfigFailed";
      assert Explains(reason, s);
    }
  }

  /** The checks of buildOPNsenseClient, in their order; None means that the client can be built. */
  method FindProblem(s: Setup) returns (reason: Option<string>)
    ensures reason.None? <==> Usable(s)
    ensures reason.Some? ==> Explains(reason.value, s)
  {
    if s.connection.None? {
      return Some("ConnectionNotFound");
    }
    if !s.connection.value {
      return Some("ConnectionNotReady");
    }
    if s.credentials.None? {
      return Some("CredentialsNotFound");
    }
    if s.credentials.value.apiKey == "" || s.credentials.value.apiSecret == "" {
      return Some("CredentialsInvalid");
    }
    if !s.tls {
      return Some("TLSConfigFailed");
    }
    return None;
  }
}
