/**
 * `SecureLocalLLM`: the local inference service. It owns a
 * `NetworkSecurityGuard`, refuses to initialise unless its security check
 * passes, refuses to generate before it is initialised, and keeps inference
 * and token counters.
 */
module LocalLLM {
  import opened Basics
  import opened Text
  import opened Config
  import opened EndpointPolicy
  import opened NetworkGuard

  /** The hosts `check_security` probes through the guard, in order. */
  const BlockedApiProbes: seq<string> := [
    "api.openai.com",
    "api.anthropic.com",
    "generativelanguage.googleapis.com"
  ]

  /** The number of checks `check_security` must pass. */
  const TotalChecks: nat := 4

  /** How many elements of `xs` satisfy `p`. */
  function CountWhere<X>(p: X -> bool, xs: seq<X>): (n: nat)
    ensures n <= |xs|
  {
    if |xs| == 0 then 0
    else CountWhere(p, xs[..|xs| - 1]) + (if p(xs[|xs| - 1]) then 1 else 0)
  }

  /** The count reaches the length exactly when every element satisfies `p`. */
  lemma {:induction false} CountWhereAll<X>(p: X -> bool, xs: seq<X>)
    ensures CountWhere(p, xs) == |xs| <==> forall j :: 0 <= j < |xs| ==> p(xs[j])
  {
    if |xs| > 0 {
      var init := xs[..|xs| - 1];
      CountWhereAll(p, init);
      assert forall j :: 0 <= j < |init| ==> init[j] == xs[j];
    }
  }

  /** The guard rejects `host`. */
  predicate Rejected(config: SecurityConfig, host: string) {
    !Validate(config, host).allowed
  }

  /** How many of `hosts`, each validated once, the guard rejects. */
  function CountRejected(config: SecurityConfig, hosts: seq<string>): nat {
    CountWhere(h => Rejected(config, h), hosts)
  }

  /** Extending a prefix of `hosts` by one host adds one exactly when that host is rejected. */
  lemma CountRejectedSnoc(config: SecurityConfig, hosts: seq<string>, i: nat)
    requires i < |hosts|
    ensures CountRejected(config, hosts[..i + 1])
         == CountRejected(config, hosts[..i]) + (if Rejected(config, hosts[i]) then 1 else 0)
  {
    assert hosts[..i + 1][..i] == hosts[..i];
  }

  /** The guard rejects every one of `hosts`. */
  predicate AllRejected(config: SecurityConfig, hosts: seq<string>) {
    forall j :: 0 <= j < |hosts| ==> Rejected(config, hosts[j])
  }

  /**
   * The outcome of `check_security` under `config`. A pass needs air-gapped
   * mode, and each probe host must be caught by the blocked list or be off
   * the whitelist.
   */
  predicate SecurityCheckPasses(config: SecurityConfig): (b: bool)
    ensures b ==> config.airGappedMode
    ensures b ==> forall j :: 0 <= j < |BlockedApiProbes| ==>
                    !NotBlocked(config, BlockedApiProbes[j])
                    || BlockedApiProbes[j] !in config.allowedEndpoints
  {
    config.airGappedMode && AllRejected(config, BlockedApiProbes)
  }

  /** The violations one `check_security` call records under `config`: at most one per probe. */
  function ProbeViolations(config: SecurityConfig): (n: nat)
    ensures n <= |BlockedApiProbes|
    ensures !config.airGappedMode ==> n == 0
  {
    if config.airGappedMode then CountRejected(config, BlockedApiProbes) else 0
  }

  /**
   * Both directions: the check passes exactly when air-gapped mode is on and
   * each probe host is caught by the blocked list or is off the whitelist.
   */
  lemma SecurityCheckPassesIff(config: SecurityConfig)
    ensures SecurityCheckPasses(config)
        <==> config.airGappedMode
             && forall j :: 0 <= j < |BlockedApiProbes| ==>
                  !NotBlocked(config, BlockedApiProbes[j])
                  || BlockedApiProbes[j] !in config.allowedEndpoints
  {
    forall j | 0 <= j < |BlockedApiProbes| {
      AcceptedIff(config, BlockedApiProbes[j]);
    }
  }

  /** A passing security check always records exactly one violation per probe. */
  lemma PassingCheckRecordsThree(config: SecurityConfig)
    requires SecurityCheckPasses(config)
    ensures ProbeViolations(config) == 3
  {
    CountWhereAll(h => Rejected(config, h), BlockedApiProbes);
  }

  /**
   * In air-gapped mode the check passes whenever the whitelist names none of
   * the probe hosts, whatever the blocked list holds.
   */
  lemma UnlistedProbesPass(config: SecurityConfig)
    requires config.airGappedMode
    requires forall j :: 0 <= j < |BlockedApiProbes| ==> BlockedApiProbes[j] !in config.allowedEndpoints
    ensures SecurityCheckPasses(config)
  {
  }

  /** With the default configuration the check passes and records three violations. */
  lemma DefaultConfigPassesSecurity()
    ensures SecurityCheckPasses(DefaultSecurityConfig)
    ensures ProbeViolations(DefaultSecurityConfig) == 3
  {
    var c := DefaultSecurityConfig;
    assert "api.openai.com" !in c.allowedEndpoints;
    assert "api.anthropic.com" !in c.allowedEndpoints;
    assert "generativelanguage.googleapis.com" !in c.allowedEndpoints;
    UnlistedProbesPass(c);
    PassingCheckRecordsThree(c);
  }

  /** `_verify_local_model_only`: the environment scan only logs, so it always passes. */
  predicate VerifyLocalModelOnly(): (ok: bool)
    ensures ok
  {
    true
  }

  /** `max_tokens or max_new_tokens`: `None` and `0` fall back to the configured default. */
  function EffectiveMaxTokens(maxTokens: Option<int>, config: ModelConfig): (n: int)
    ensures maxTokens == None || maxTokens == Some(0) ==> n == config.maxNewTokens
    ensures maxTokens.Some? && maxTokens.value != 0 ==> n == maxTokens.value
  {
    match maxTokens
    case Some(m) => if m != 0 then m else config.maxNewTokens
    case None => config.maxNewTokens
  }

  /** A `max_tokens` of `None` or `0` falls back to the default of 1024; any other value is kept. */
  lemma DefaultModelSettings()
    ensures DefaultModelConfig.modelName == "Llama-2-Govt-v4" && DefaultModelConfig.quantization == "int8"
    ensures EffectiveMaxTokens(None, DefaultModelConfig) == 1024
    ensures EffectiveMaxTokens(Some(0), DefaultModelConfig) == 1024
    ensures forall n :: n != 0 ==> EffectiveMaxTokens(Some(n), DefaultModelConfig) == n
    ensures DefaultModelConfig.numGpus == 4
  {
  }

  /** The fixed answer of the simulated model. */
  const SimulatedText: string :=
    "Based on the analysis of the "
    + "provided data, the pollution levels "
    + "indicate moderate to severe air quality degradation. Primary "
    + "sources appear to be vehicular emissions and industrial activity. "
    + "Recommended actions include increased monitoring, public advisory "
    + "issuance, and coordination with traffic authorities for potential "
    + "vehicle restrictions in affected zones."

  /**
   * `_simulate_inference`: ignores the prompt and the token limit and returns
   * the fixed answer, which holds at least one word.
   */
  function SimulateInference(prompt: string, maxTokens: int): (answer: string)
    ensures answer == SimulatedText
    ensures |Split(answer)| > 0
  {
    SplitStartsWithWord(SimulatedText);
    SimulatedText
  }

  /**
   * The dictionary `generate` builds for an initialised service: the answer
   * and its word count, the configured model, the local provider and the
   * requested classification.
   */
  function Respond(config: ModelConfig, prompt: string, maxTokens: Option<int>, classification: SecurityLevel)
    : (g: Generation)
    ensures g.generatedText == SimulatedText
    ensures g.tokensGenerated == |Split(g.generatedText)| && g.tokensGenerated > 0
    ensures g.model == config.modelName && g.modelVersion == config.modelVersion
    ensures g.quantization == config.quantization && g.provider == LocalProvider
    ensures g.classification == classification.Value()
  {
    var text := SimulateInference(prompt, EffectiveMaxTokens(maxTokens, config));
    Generation(
      text, config.modelName, config.modelVersion, LocalProvider,
      config.quantization, |Split(text)|, classification.Value())
  }

  const NotInitializedError: string := "Model not initialized. Call initialize() first."

  /** The modelled part of the dictionary `generate` returns. */
  datatype Generation = Generation(
    generatedText: string,
    model: string,
    modelVersion: string,
    provider: string,
    quantization: string,
    tokensGenerated: nat,
    classification: string)

  /** The dictionary `health_check` returns, without its timestamp. */
  datatype Health = Health(status: string, modelLoaded: bool, securityCheck: bool, inferenceCount: nat)

  /** The dictionary `get_statistics` returns, without the initialisation time. */
  datatype Statistics = Statistics(
    isInitialized: bool,
    modelName: string,
    inferenceCount: nat,
    totalTokensProcessed: nat,
    securityViolations: nat,
    airGappedMode: bool,
    gpuCount: int,
    quantization: string)

  class SecureLocalLLM {
    const modelConfig: ModelConfig
    const securityConfig: SecurityConfig
    const networkGuard: NetworkSecurityGuard
    var isInitialized: bool
    var inferenceCount: nat
    var totalTokensProcessed: nat

    /**
     * The guard enforces the service's own security configuration, and the
     * service is initialised only under a configuration that passes the
     * security check.
     */
    predicate Valid()
      reads this
    {
      networkGuard.config == securityConfig
      && (isInitialized ==> SecurityCheckPasses(securityConfig))
    }

    /** A missing configuration is replaced by the default one. */
    constructor (modelConfig: Option<ModelConfig>, securityConfig: Option<SecurityConfig>)
      ensures Valid() && fresh(networkGuard)
      ensures this.modelConfig == modelConfig.GetOr(DefaultModelConfig)
      ensures this.securityConfig == securityConfig.GetOr(DefaultSecurityConfig)
      ensures !isInitialized && inferenceCount == 0 && totalTokensProcessed == 0
      ensures networkGuard.violationCount == 0
    {
      this.modelConfig := modelConfig.GetOr(DefaultModelConfig);
      this.securityConfig := securityConfig.GetOr(DefaultSecurityConfig);
      networkGuard := new NetworkSecurityGuard(securityConfig.GetOr(DefaultSecurityConfig));
      isInitialized := false;
      inferenceCount := 0;
      totalTokensProcessed := 0;
    }

    /**
     * Fails at once when air-gapped mode is off. Otherwise probes every host
     * of `BlockedApiProbes` through the guard (no short-circuit) and passes
     * only if all were rejected; the encryption check never fails and the
     * provider check always passes.
     */
    method CheckSecurity() returns (passed: bool)
      requires Valid()
      modifies networkGuard
      ensures passed == SecurityCheckPasses(securityConfig)
      ensures networkGuard.violationCount
           == old(networkGuard.violationCount) + ProbeViolations(securityConfig)
    {
      var checksPassed := 0;

      if securityConfig.airGappedMode {
        checksPassed := checksPassed + 1;
      } else {
        return false;
      }

      var allBlocked := ProbeBlockedApis();
      if allBlocked {
        checksPassed := checksPassed + 1;
      } else {
        return false;
      }

      if securityConfig.requireEncryptionAtRest && securityConfig.requireEncryptionInTransit {
        checksPassed := checksPassed + 1;
      } else {
        // a warning only, still counted as passed
        checksPassed := checksPassed + 1;
      }

      if VerifyLocalModelOnly() {
        checksPassed := checksPassed + 1;
      } else {
        return false;
      }

      passed := checksPassed == TotalChecks;
    }

    /**
     * Validates every host of `BlockedApiProbes` through the guard, without
     * stopping at the first one let through, and reports whether all were
     * rejected; each rejection is a recorded violation.
     */
    method ProbeBlockedApis() returns (allBlocked: bool)
      requires Valid()
      modifies networkGuard
      ensures allBlocked == AllRejected(securityConfig, BlockedApiProbes)
      ensures networkGuard.violationCount
           == old(networkGuard.violationCount) + CountRejected(securityConfig, BlockedApiProbes)
    {
      var probes := BlockedApiProbes;
      allBlocked := true;
      var i := 0;
      while i < |probes|
        invariant 0 <= i <= |probes|
        invariant allBlocked == (CountRejected(securityConfig, probes[..i]) == i)
        invariant networkGuard.violationCount
               == old(networkGuard.violationCount) + CountRejected(securityConfig, probes[..i])
      {
        var isAllowed, reason := networkGuard.ValidateEndpoint(probes[i]);
        if isAllowed {
          allBlocked := false;
        }
        assert isAllowed == !Rejected(securityConfig, probes[i]);
        CountRejectedSnoc(securityConfig, probes, i);
        i := i + 1;
      }
      assert probes[..i] == probes;
      CountWhereAll(h => Rejected(securityConfig, h), probes);
    }

    /**
     * Idempotent: an initialised service answers true and changes nothing.
     * Otherwise the service becomes initialised exactly when the security
     * check passes, and the check's violations are recorded either way.
     */
    method Initialize() returns (ok: bool)
      requires Valid()
      modifies this, networkGuard
      ensures Valid()
      ensures old(isInitialized) ==>
                ok && isInitialized
                && networkGuard.violationCount == old(networkGuard.violationCount)
      ensures !old(isInitialized) ==>
                ok == SecurityCheckPasses(securityConfig) && isInitialized == ok
                && networkGuard.violationCount
                   == old(networkGuard.violationCount) + ProbeViolations(securityConfig)
      ensures inferenceCount == old(inferenceCount)
      ensures totalTokensProcessed == old(totalTokensProcessed)
    {
      if isInitialized {
        return true;
      }
      var secure := CheckSecurity();
      if !secure {
        return false;
      }
      isInitialized := true;
      return true;
    }

    /**
     * Refuses before initialisation, changing nothing. Otherwise counts one
     * inference and adds the whitespace-separated words of the prompt and of
     * the answer to the token total.
     */
    method Generate(prompt: string, maxTokens: Option<int>, classification: SecurityLevel)
      returns (r: Result<Generation, string>)
      requires Valid()
      modifies this
      ensures Valid()
      ensures r.Success? ==> SecurityCheckPasses(securityConfig)
      ensures isInitialized == old(isInitialized)
      ensures !old(isInitialized) ==>
                r == Failure(NotInitializedError)
                && inferenceCount == old(inferenceCount)
                && totalTokensProcessed == old(totalTokensProcessed)
      ensures old(isInitialized) ==>
                r == Success(Respond(modelConfig, prompt, maxTokens, classification))
                && inferenceCount == old(inferenceCount) + 1
                && totalTokensProcessed
                   == old(totalTokensProcessed) + |Split(prompt)| + r.value.tokensGenerated
    {
      if !isInitialized {
        return Failure(NotInitializedError);
      }
      var g := Respond(modelConfig, prompt, maxTokens, classification);
      CountInference(|Split(prompt)|, g.tokensGenerated);
      r := Success(g);
    }

    /** One more inference, and the prompt's and the answer's tokens added to the total. */
    method CountInference(promptTokens: nat, answerTokens: nat)
      modifies this
      ensures isInitialized == old(isInitialized)
      ensures inferenceCount == old(inferenceCount) + 1
      ensures totalTokensProcessed == old(totalTokensProcessed) + promptTokens + answerTokens
    {
      inferenceCount := inferenceCount + 1;
      totalTokensProcessed := totalTokensProcessed + promptTokens + answerTokens;
    }

    /**
     * Reports "healthy" exactly when initialised, the current inference
     * count, and the outcome of a fresh security check, whose probes are
     * counted as violations like any other call.
     */
    method HealthCheck() returns (h: Health)
      requires Valid()
      modifies networkGuard
      ensures h.status == (if isInitialized then "healthy" else "initializing")
      ensures h.modelLoaded == isInitialized && h.inferenceCount == inferenceCount
      ensures h.securityCheck == SecurityCheckPasses(securityConfig)
      ensures networkGuard.violationCount
           == old(networkGuard.violationCount) + ProbeViolations(securityConfig)
    {
      var status := if isInitialized then "healthy" else "initializing";
      var loaded := isInitialized;
      var secure := CheckSecurity();
      h := Health(status, loaded, secure, inferenceCount);
    }

    /** Reports the counters, the guard's violation count and the configuration summary. */
    method GetStatistics() returns (s: Statistics)
      ensures s.isInitialized == isInitialized
      ensures s.inferenceCount == inferenceCount
      ensures s.totalTokensProcessed == totalTokensProcessed
      ensures s.securityViolations == networkGuard.violationCount
      ensures s.airGappedMode == securityConfig.airGappedMode
      ensures s.modelName == modelConfig.modelName && s.gpuCount == modelConfig.numGpus
      ensures s.quantization == modelConfig.quantization
    {
      var violations := networkGuard.GetViolationCount();
      s := Statistics(
        isInitialized, modelConfig.modelName, inferenceCount, totalTokensProcessed,
        violations, securityConfig.airGappedMode, modelConfig.numGpus, modelConfig.quantization);
    }
  }
}
