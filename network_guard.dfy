/**
 * `NetworkSecurityGuard`: the application-level check run before any
 * outbound connection, with its running count of rejected attempts.
 */
module NetworkGuard {
  import opened Text
  import opened Config
  import opened EndpointPolicy

  class NetworkSecurityGuard {
    const config: SecurityConfig
    var violationCount: nat

    constructor (config: SecurityConfig)
      ensures this.config == config && violationCount == 0
    {
      this.config := config;
      violationCount := 0;
    }

    /** Counts one rejected connection attempt (the audit log line is not modelled). */
    method RecordViolation(hostname: string)
      modifies this
      ensures violationCount == old(violationCount) + 1
    {
      violationCount := violationCount + 1;
    }

    /**
     * Walks the blocked list in order and returns at the first match, then
     * consults the whitelist, then the air-gapped default-deny. The verdict
     * is `Validate(config, hostname)`, and the counter moves by one exactly
     * when the hostname is rejected.
     */
    method ValidateEndpoint(hostname: string) returns (allowed: bool, reason: string)
      modifies this
      ensures Verdict(allowed, reason) == Validate(config, hostname)
      ensures violationCount == old(violationCount) + (if allowed then 0 else 1)
    {
      var i := 0;
      while i < |config.blockedDomains|
        invariant 0 <= i <= |config.blockedDomains|
        invariant FirstMatchFrom(config.blockedDomains, hostname, 0)
               == FirstMatchFrom(config.blockedDomains, hostname, i)
        invariant violationCount == old(violationCount)
      {
        var blocked := config.blockedDomains[i];
        if |blocked| > 0 && blocked[0] == '*' {
          var suffix := blocked[1..];
          if EndsWith(hostname, suffix) || hostname == Tail(suffix) {
            RecordViolation(hostname);
            return false, "Domain blocked by security policy: " + blocked;
          }
        } else if hostname == blocked || EndsWith(hostname, "." + blocked) {
          RecordViolation(hostname);
          return false, "Domain explicitly blocked: " + blocked;
        }
        i := i + 1;
      }

      if hostname in config.allowedEndpoints {
        return true, "Endpoint whitelisted";
      }

      if config.airGappedMode {
        RecordViolation(hostname);
        return false, "Air-gapped mode: only whitelisted endpoints allowed";
      }

      return true, "Endpoint allowed";
    }

    /** The number of rejections recorded so far. */
    method GetViolationCount() returns (n: nat)
      ensures n == violationCount
    {
      n := violationCount;
    }
  }
}
