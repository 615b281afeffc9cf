/**
 * The service's configuration records (`SecurityConfig`, `ModelConfig`) and
 * its enumerations. Neither record is changed after construction, so both
 * are values.
 */
module Config {

  /** Data classification attached to an inference request. */
  datatype SecurityLevel = Public | Internal | Confidential | Restricted | TopSecret {
    function Value(): string {
      match this
      case Public => "PUBLIC"
      case Internal => "INTERNAL"
      case Confidential => "CONFIDENTIAL"
      case Restricted => "RESTRICTED"
      case TopSecret => "TOP_SECRET"
    }
  }

  /** The only provider the service knows; its value is reported in inference metadata. */
  const LocalProvider: string := "LOCAL_LLAMA"

  datatype SecurityConfig = SecurityConfig(
    airGappedMode: bool,
    blockedDomains: seq<string>,
    allowedEndpoints: seq<string>,
    logRetentionDays: int,
    inferenceHistoryDays: int,
    requireEncryptionAtRest: bool,
    requireEncryptionInTransit: bool,
    encryptionAlgorithm: string)

  /** The blocked list a default `SecurityConfig` carries, in its order. */
  const DefaultBlockedDomains: seq<string> := [
    "api.openai.com",
    "api.anthropic.com",
    "*.openai.azure.com",
    "bedrock.*.amazonaws.com",
    "generativelanguage.googleapis.com",
    "api.cohere.ai",
    "api-inference.huggingface.co",
    "*.replicate.com"
  ]

  /** The whitelist a default `SecurityConfig` carries. */
  const DefaultAllowedEndpoints: seq<string> := [
    "localhost",
    "127.0.0.1",
    "model-server.internal",
    "gpu-cluster.internal",
    "redis.internal",
    "postgres.internal"
  ]

  /** `SecurityConfig()` with every field at its default. */
  const DefaultSecurityConfig: SecurityConfig := SecurityConfig(
    true, DefaultBlockedDomains, DefaultAllowedEndpoints, 365, 90, true, true, "AES-256-GCM")

  /**
   * The default configuration is the strict one: air-gapped and encrypted at
   * rest and in transit. The last clause is a fact about the two list literals
   * only (no whitelisted endpoint is written on the blocked list); the guard
   * matches entries by suffix, and what it accepts under these defaults is
   * `EndpointPolicy.DefaultAcceptsOnlyWhitelisted`.
   */
  lemma DefaultSecurityConfigIsStrict()
    ensures DefaultSecurityConfig.airGappedMode
    ensures DefaultSecurityConfig.requireEncryptionAtRest && DefaultSecurityConfig.requireEncryptionInTransit
    ensures DefaultSecurityConfig.logRetentionDays == 365 && DefaultSecurityConfig.inferenceHistoryDays == 90
    ensures forall k :: 0 <= k < |DefaultAllowedEndpoints| ==> DefaultAllowedEndpoints[k] !in DefaultBlockedDomains
  {
  }

  /** The integer and text settings of `ModelConfig`; paths, floats and the quantisation dict are not modelled. */
  datatype ModelConfig = ModelConfig(
    modelName: string,
    modelVersion: string,
    quantization: string,
    maxContextLength: int,
    maxNewTokens: int,
    topK: int,
    numGpus: int)

  /** `ModelConfig()` with every modelled field at its default. */
  const DefaultModelConfig: ModelConfig :=
    ModelConfig("Llama-2-Govt-v4", "4.2.0", "int8", 4096, 1024, 50, 4)
}
