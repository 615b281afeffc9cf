/**
 * The decision `NetworkSecurityGuard.validate_endpoint` makes about a
 * hostname, as a function of the configuration: the blocked list first (in
 * order, first match wins), then the whitelist, then the air-gapped
 * default-deny. The guard's method is proved to compute exactly this.
 */
module EndpointPolicy {
  import opened Basics
  import opened Text
  import opened Config

  /** The pair `(is_allowed, reason)` that `validate_endpoint` returns. */
  datatype Verdict = Verdict(allowed: bool, reason: string)

  const WhitelistedReason: string := "Endpoint whitelisted"
  const AirGappedReason: string := "Air-gapped mode: only whitelisted endpoints allowed"
  const AllowedReason: string := "Endpoint allowed"

  /** `blocked.startswith("*")`. */
  predicate IsWildcard(entry: string) {
    |entry| > 0 && entry[0] == '*'
  }

  /**
   * Whether one blocked entry matches `host`. A wildcard `*S` matches a
   * host ending in `S`, or equal to `S` minus its first character; any other
   * entry (even one with a `*` further in) matches itself and its
   * dot-subdomains, literally.
   */
  predicate EntryMatches(entry: string, host: string): (b: bool)
    ensures !IsWildcard(entry) && host == entry ==> b
    ensures !IsWildcard(entry) && b ==> EndsWith(host, entry)
    ensures entry == "*" ==> b
  {
    if IsWildcard(entry) then
      var suffix := entry[1..];
      EndsWith(host, suffix) || host == Tail(suffix)
    else
      host == entry || EndsWith(host, "." + entry)
  }

  /**
   * The reason reported when `entry` is the blocked entry that matched: it
   * names the entry and is none of the whitelist, default-deny or allowed
   * reasons.
   */
  function BlockReason(entry: string): (reason: string)
    ensures EndsWith(reason, entry)
    ensures reason != WhitelistedReason && reason != AirGappedReason && reason != AllowedReason
  {
    var prefix := if IsWildcard(entry) then "Domain blocked by security policy: "
                  else "Domain explicitly blocked: ";
    NamedReasonIsDistinct(prefix, entry);
    prefix + entry
  }

  /** A reason starting with `D` that ends in `entry` names it and is none of the other three reasons. */
  lemma NamedReasonIsDistinct(prefix: string, entry: string)
    requires |prefix| > 0 && prefix[0] == 'D'
    ensures EndsWith(prefix + entry, entry)
    ensures prefix + entry != WhitelistedReason && prefix + entry != AllowedReason
    ensures prefix + entry != AirGappedReason
  {
    var reason := prefix + entry;
    assert reason[0] == 'D';
    assert reason[|prefix|..] == entry;
    assert WhitelistedReason[0] == 'E' && AllowedReason[0] == 'E';
    AirGappedReasonInitial();
  }

  /** The default-deny reason starts with `A`, seen by spelling it in two parts. */
  lemma AirGappedReasonInitial()
    ensures |AirGappedReason| > 0 && AirGappedReason[0] == 'A'
  {
    var head := "Air-gapped mode: ";
    var rest := "only whitelisted endpoints allowed";
    assert AirGappedReason == head + rest;
    assert (head + rest)[0] == head[0];
  }

  /** The index of the first entry at or after `from` that matches `host`, if any. */
  function FirstMatchFrom(blocked: seq<string>, host: string, from: nat): (r: Option<nat>)
    requires from <= |blocked|
    ensures r.Some? ==> from <= r.value < |blocked| && EntryMatches(blocked[r.value], host)
    ensures r.Some? ==> forall j :: from <= j < r.value ==> !EntryMatches(blocked[j], host)
    ensures r.None? <==> forall j :: from <= j < |blocked| ==> !EntryMatches(blocked[j], host)
    decreases |blocked| - from
  {
    if from == |blocked| then None
    else if EntryMatches(blocked[from], host) then Some(from)
    else FirstMatchFrom(blocked, host, from + 1)
  }

  /**
   * The verdict of `validate_endpoint(host)` under `config`: an acceptance is
   * reported as whitelisted or as allowed, a rejection never is.
   */
  function Validate(config: SecurityConfig, host: string): (v: Verdict)
    ensures v.allowed <==> v.reason == WhitelistedReason || v.reason == AllowedReason
  {
    match FirstMatchFrom(config.blockedDomains, host, 0)
    case Some(i) => Verdict(false, BlockReason(config.blockedDomains[i]))
    case None =>
      if host in config.allowedEndpoints then Verdict(true, WhitelistedReason)
      else if config.airGappedMode then Verdict(false, AirGappedReason)
      else Verdict(true, AllowedReason)
  }

  /** A rejection either names a blocked entry that matches the host or is the air-gapped default-deny. */
  lemma RejectionNamesCause(config: SecurityConfig, host: string)
    requires !Validate(config, host).allowed
    ensures Validate(config, host).reason == AirGappedReason
            || exists i :: 0 <= i < |config.blockedDomains|
                 && EntryMatches(config.blockedDomains[i], host)
                 && Validate(config, host).reason == BlockReason(config.blockedDomains[i])
  {
  }

  /** No blocked entry matches `host`. */
  predicate NotBlocked(config: SecurityConfig, host: string) {
    forall j :: 0 <= j < |config.blockedDomains| ==> !EntryMatches(config.blockedDomains[j], host)
  }

  /** A host is accepted exactly when no blocked entry matches it and it is whitelisted or the guard is not air-gapped. */
  lemma AcceptedIff(config: SecurityConfig, host: string)
    ensures Validate(config, host).allowed
        <==> NotBlocked(config, host) && (host in config.allowedEndpoints || !config.airGappedMode)
  {
  }

  /** Any matching blocked entry rejects the host, whatever the whitelist says. */
  lemma BlockedEntryWins(config: SecurityConfig, host: string, i: nat)
    requires i < |config.blockedDomains| && EntryMatches(config.blockedDomains[i], host)
    ensures !Validate(config, host).allowed
    ensures Validate(config, host).reason != WhitelistedReason
  {
  }

  /** A non-wildcard entry rejects the host equal to it and every dot-subdomain of it. */
  lemma ExactEntryBlocks(config: SecurityConfig, host: string, i: nat)
    requires i < |config.blockedDomains|
    requires !IsWildcard(config.blockedDomains[i])
    requires host == config.blockedDomains[i] || EndsWith(host, "." + config.blockedDomains[i])
    ensures !Validate(config, host).allowed
  {
  }

  /** A wildcard `*.X` rejects `X` itself and every host ending in `.X`. */
  lemma WildcardEntryBlocks(config: SecurityConfig, x: string, host: string, i: nat)
    requires i < |config.blockedDomains| && config.blockedDomains[i] == "*." + x
    requires host == x || EndsWith(host, "." + x)
    ensures !Validate(config, host).allowed
  {
  }

  /** A bare `*` entry rejects every hostname. */
  lemma StarBlocksEverything(config: SecurityConfig, host: string)
    requires "*" in config.blockedDomains
    ensures !Validate(config, host).allowed
  {
  }

  /** The first matching blocked entry, in list order, names the reason. */
  lemma FirstMatchNamesReason(config: SecurityConfig, host: string, i: nat)
    requires i < |config.blockedDomains| && EntryMatches(config.blockedDomains[i], host)
    requires forall j :: 0 <= j < i ==> !EntryMatches(config.blockedDomains[j], host)
    ensures Validate(config, host) == Verdict(false, BlockReason(config.blockedDomains[i]))
  {
  }

  /** In air-gapped mode every accepted host is on the whitelist. */
  lemma AirGappedDefaultDeny(config: SecurityConfig, host: string)
    requires config.airGappedMode && Validate(config, host).allowed
    ensures host in config.allowedEndpoints
    ensures Validate(config, host).reason == WhitelistedReason
  {
  }

  /** Outside air-gapped mode a host is accepted exactly when no blocked entry matches it; a host not on the whitelist is then accepted as "Endpoint allowed". */
  lemma OpenModeAcceptsUnblocked(config: SecurityConfig, host: string)
    requires !config.airGappedMode
    ensures Validate(config, host).allowed <==> NotBlocked(config, host)
    ensures NotBlocked(config, host) && host !in config.allowedEndpoints
            ==> Validate(config, host) == Verdict(true, AllowedReason)
  {
  }

  /** A suffix that disagrees with `s` at one aligned position does not end `s`. */
  lemma NotEndsWithAt(s: string, suffix: string, k: nat)
    requires k < |suffix| <= |s| && s[|s| - |suffix| + k] != suffix[k]
    ensures !EndsWith(s, suffix)
  {
  }

  /**
   * An entry with `*` in the middle is compared literally: it blocks the
   * host spelled with the `*`, but not a concrete Bedrock region host.
   */
  lemma MidWildcardIsLiteral()
    ensures EntryMatches("bedrock.*.amazonaws.com", "bedrock.*.amazonaws.com")
    ensures !EntryMatches("bedrock.*.amazonaws.com", "bedrock.us-east-1.amazonaws.com")
  {
    NotEndsWithAt("bedrock.us-east-1.amazonaws.com", "." + "bedrock.*.amazonaws.com", 1);
  }

  /** Under the default blocked list the bare domain `openai.azure.com` is rejected by the wildcard `*.openai.azure.com`. */
  lemma DefaultWildcardBlocksBareDomain()
    ensures Validate(DefaultSecurityConfig, "openai.azure.com")
         == Verdict(false, BlockReason("*.openai.azure.com"))
  {
    var host := "openai.azure.com";
    var blocked := DefaultSecurityConfig.blockedDomains;
    NotEndsWithAt(host, "." + blocked[0], 0);
    assert !EntryMatches(blocked[0], host);
    assert !EntryMatches(blocked[1], host);
    assert forall j :: 0 <= j < 2 ==> !EntryMatches(blocked[j], host);
    assert Tail(blocked[2][1..]) == host;
    assert EntryMatches(blocked[2], host);
    FirstMatchNamesReason(DefaultSecurityConfig, host, 2);
  }

  /**
   * Under the default configuration all egress is blocked except to the
   * whitelisted internal endpoints: a host is accepted exactly when it is
   * whitelisted.
   */
  lemma DefaultAcceptsOnlyWhitelisted(host: string)
    ensures Validate(DefaultSecurityConfig, host).allowed <==> host in DefaultAllowedEndpoints
  {
    var blocked := DefaultSecurityConfig.blockedDomains;
    if host in DefaultAllowedEndpoints {
      assert |host| > 0 && host[|host| - 1] in {'t', '1', 'l'};
      forall j | 0 <= j < |blocked|
        ensures !EntryMatches(blocked[j], host)
      {
        assert |blocked[j]| >= 3 && blocked[j][|blocked[j]| - 1] in {'m', 'o', 'i'};
        LastCharMismatch(blocked[j], host);
      }
    }
  }

  /** An entry (of at least three characters) never matches a host that ends in a different character. */
  lemma LastCharMismatch(entry: string, host: string)
    requires |entry| >= 3 && |host| > 0 && host[|host| - 1] != entry[|entry| - 1]
    ensures !EntryMatches(entry, host)
  {
    var last := entry[|entry| - 1];
    if IsWildcard(entry) {
      var suffix := entry[1..];
      assert suffix[|suffix| - 1] == last && Tail(suffix)[|Tail(suffix)| - 1] == last;
    }
  }
}
