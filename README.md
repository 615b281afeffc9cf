# Local AI service: endpoint guard and service lifecycle

This project models the decision logic of the pollution command centre's
local inference service (`backend-core/ai_service.py`) and proves properties
of it in Dafny.

- **Endpoint policy** (`NetworkSecurityGuard.validate_endpoint`). A hostname
  is checked against the blocked list in list order, and the first matching
  entry decides. An entry starting with `*` matches by suffix. Any other
  entry matches itself and its dot-subdomains, compared literally. Only then
  is the whitelist consulted, and after it the air-gapped default-deny. Every
  rejection adds one to the guard's violation counter.
  `EndpointPolicy.Validate` is the decision as a function of the
  configuration. `NetworkGuard.NetworkSecurityGuard.ValidateEndpoint` is the
  loop with early returns, proved to compute it.
- **Service lifecycle** (`SecureLocalLLM`). `check_security` fails at once
  when air-gapped mode is off. Otherwise it probes three fixed AI API hosts
  through the guard, without short-circuiting, and passes only if all three
  are rejected. `initialize` moves the service from not initialised to
  initialised, guarded by that check, and is idempotent. `generate` refuses
  to run before initialisation. When it runs, it counts one inference and adds
  the whitespace-separated word counts of the prompt and of the answer to the
  token total. `health_check` reports the status and runs a fresh security
  check, which records its own violations.
- **Severity** (`_assess_severity`). A threshold ladder over the report's
  AQI, where a missing AQI counts as 0.

Modules: `Basics` (Option, Result), `Text` (Python's `endswith`, `s[1:]`,
`str.split()` and `" ".join`), `Config` (`SecurityConfig`, `ModelConfig`
and their defaults), `EndpointPolicy`, `NetworkGuard`, `LocalLLM`,
`Severity`. The configuration records never change after construction, so
they are datatypes. The guard and the service update fields in place, so
they are classes. `_verify_local_model_only` only logs what it finds in the
environment and returns `True`, so it is the constant predicate
`LocalLLM.VerifyLocalModelOnly`.

## Model

| member | source | states |
|---|---|---|
| `EndpointPolicy.EntryMatches` | backend-core/ai_service.py:242-250 | A non-`*` entry matches the hostname equal to it, and every hostname it matches ends with the entry. A bare `*` matches every hostname. |
| `EndpointPolicy.BlockReason` | backend-core/ai_service.py:242-250 | The rejection reason ends with the blocked entry that matched. It differs from "Endpoint whitelisted", "Endpoint allowed" and the air-gapped default-deny reason. |
| `EndpointPolicy.Validate` | backend-core/ai_service.py:230-261 | A verdict is an acceptance exactly when its reason is "Endpoint whitelisted" or "Endpoint allowed". |
| `EndpointPolicy.RejectionNamesCause` | backend-core/ai_service.py:241-259 | Every rejection is either the air-gapped default-deny or names a blocked entry that matches the hostname. |
| `EndpointPolicy.FirstMatchFrom` | backend-core/ai_service.py:241-250 | The blocked entry that decides is the first in list order that matches. No earlier entry matches, and there is no result exactly when no entry matches. |
| `EndpointPolicy.AcceptedIff` | backend-core/ai_service.py:240-261 | A hostname is accepted iff no blocked entry matches it and it is whitelisted or air-gapped mode is off. |
| `EndpointPolicy.BlockedEntryWins` | backend-core/ai_service.py:241-254 | A matching blocked entry rejects the hostname even when the whitelist names it. The reason is then never "Endpoint whitelisted". |
| `EndpointPolicy.ExactEntryBlocks` | backend-core/ai_service.py:248-250 | A non-`*` entry rejects the hostname equal to it and every hostname ending in `"." + entry`. |
| `EndpointPolicy.WildcardEntryBlocks` | backend-core/ai_service.py:242-247 | A `*.X` entry rejects `X` itself and every hostname ending in `.X`. |
| `EndpointPolicy.StarBlocksEverything` | backend-core/ai_service.py:242-247 | A bare `*` entry rejects every hostname, since every string ends with the empty suffix. |
| `EndpointPolicy.FirstMatchNamesReason` | backend-core/ai_service.py:241-250 | When entry `i` is the first match, the verdict is a rejection whose reason names entry `i`, in the wildcard or the explicit wording. |
| `EndpointPolicy.AirGappedDefaultDeny` | backend-core/ai_service.py:252-259 | In air-gapped mode every accepted hostname is on the whitelist and is accepted as "Endpoint whitelisted". |
| `EndpointPolicy.OpenModeAcceptsUnblocked` | backend-core/ai_service.py:252-261 | With air-gapped mode off, a hostname is accepted iff no blocked entry matches it. An unmatched hostname off the whitelist is accepted as "Endpoint allowed". |
| `EndpointPolicy.MidWildcardIsLiteral` | backend-core/ai_service.py:248-250 | `bedrock.*.amazonaws.com` is compared literally. It blocks itself but not `bedrock.us-east-1.amazonaws.com`. |
| `EndpointPolicy.DefaultWildcardBlocksBareDomain` | backend-core/ai_service.py:129-138 | Under the default blocked list, the bare `openai.azure.com` is rejected by `*.openai.azure.com`, with that entry named in the reason. |
| `EndpointPolicy.DefaultAcceptsOnlyWhitelisted` | backend-core/ai_service.py:230-261 | Under the default `SecurityConfig`, a hostname is accepted iff it is one of the six default whitelisted endpoints: no default blocked entry catches any of them, and air-gapped mode denies everything else. |
| `Config.DefaultSecurityConfigIsStrict` | backend-core/ai_service.py:118-157 | The default `SecurityConfig` is air-gapped and requires encryption at rest and in transit. It keeps logs 365 days and inference history 90 days. As a fact about the two list literals only, no default whitelisted endpoint is written on the default blocked list; what the guard accepts under these defaults is `EndpointPolicy.DefaultAcceptsOnlyWhitelisted`. |
| `NetworkGuard.NetworkSecurityGuard.constructor` | backend-core/ai_service.py:225-228 | A new guard holds the given configuration and a violation count of 0. |
| `NetworkGuard.NetworkSecurityGuard.RecordViolation` | backend-core/ai_service.py:263-270 | The violation count rises by exactly 1. |
| `NetworkGuard.NetworkSecurityGuard.ValidateEndpoint` | backend-core/ai_service.py:230-261 | Returns exactly `Validate(config, hostname)`. The count rises by 1 when the result is a rejection and is unchanged when it is an acceptance, so it never decreases. |
| `NetworkGuard.NetworkSecurityGuard.GetViolationCount` | backend-core/ai_service.py:272-275 | Returns the current violation count and changes nothing. |
| `LocalLLM.SecurityCheckPasses` | backend-core/ai_service.py:499-527 | A passing check needs air-gapped mode. Each probe host must then be caught by the blocked list or be absent from the whitelist. |
| `LocalLLM.SecurityCheckPassesIff` | backend-core/ai_service.py:499-527 | The check passes iff air-gapped mode is on and every probe host is caught by the blocked list or absent from the whitelist. |
| `LocalLLM.ProbeViolations` | backend-core/ai_service.py:509-522 | One check records at most one violation per probe host, and none when air-gapped mode is off. |
| `LocalLLM.VerifyLocalModelOnly` | backend-core/ai_service.py:568-594 | The provider check always passes. The environment scan only logs. |
| `LocalLLM.SimulateInference` | backend-core/ai_service.py:783-800 | The answer is the fixed simulated text whatever the prompt and token limit, and it holds at least one word. |
| `LocalLLM.CountWhereAll` | backend-core/ai_service.py:515-522 | The count of rejected probes reaches the number of probes exactly when every probe is rejected, which is what `all_blocked` tracks. |
| `LocalLLM.PassingCheckRecordsThree` | backend-core/ai_service.py:509-527 | Whenever the security check passes, it has recorded exactly 3 violations. |
| `LocalLLM.UnlistedProbesPass` | backend-core/ai_service.py:499-527 | In air-gapped mode the check passes whenever the whitelist names none of the three probe hosts, whatever the blocked list holds. |
| `LocalLLM.DefaultConfigPassesSecurity` | backend-core/ai_service.py:117-148 | With the default `SecurityConfig`, the security check passes and records exactly 3 violations. |
| `LocalLLM.EffectiveMaxTokens` | backend-core/ai_service.py:631 | A `max_tokens` of `None` or `0` falls back to the configured `max_new_tokens` (1024 by default). Any other value is kept. |
| `LocalLLM.DefaultModelSettings` | backend-core/ai_service.py:283-321 | The default model is `Llama-2-Govt-v4` quantised to `int8` on 4 GPUs. A request whose `max_tokens` is `None` or `0` gets the default budget of 1024 new tokens. Any other value, negative ones included, is kept. |
| `LocalLLM.Respond` | backend-core/ai_service.py:640-661 | The response carries the simulated text and its non-zero word count. It reports the configured model name, version and quantisation, the local provider and the requested classification's value. |
| `LocalLLM.SecureLocalLLM.constructor` | backend-core/ai_service.py:368-399 | A missing configuration becomes the default. The guard enforces the service's security configuration. The service starts uninitialised with zero counters and zero violations. |
| `LocalLLM.SecureLocalLLM.CheckSecurity` | backend-core/ai_service.py:491-566 | Returns false, touching no counter, when air-gapped mode is off. Otherwise it returns true iff all three probes are rejected, and adds the number of rejected probes to the violation count. |
| `LocalLLM.SecureLocalLLM.ProbeBlockedApis` | backend-core/ai_service.py:509-522 | Validates all three probe hosts through the guard without stopping early. The result is true iff every one was rejected, and the violation count rises by the number rejected. |
| `LocalLLM.SecureLocalLLM.Initialize` | backend-core/ai_service.py:421-472 | If already initialised, returns true and changes nothing. Otherwise the result and the new `_is_initialized` both equal the security check's outcome, and the check's violations are recorded. The inference counters do not change. The service stays valid: it is initialised only under a configuration that passes the security check. |
| `LocalLLM.SecureLocalLLM.Generate` | backend-core/ai_service.py:617-674 | Before initialisation it fails with the "Model not initialized" error and changes no counter. Otherwise the inference count rises by exactly 1, and the token total rises by the word counts of the prompt and of the answer. The result is `Respond` for the configuration, prompt, token limit and classification; its fields are stated by `LocalLLM.Respond`. A successful generation implies the security configuration passes the check, as the docstring at lines 485-486 requires. |
| `LocalLLM.SecureLocalLLM.HealthCheck` | backend-core/ai_service.py:827-833 | Status is "healthy" iff the service is initialised, else "initializing". `inference_count` is the current counter, and `security_check` is the check's outcome, whose violations are recorded. |
| `LocalLLM.SecureLocalLLM.GetStatistics` | backend-core/ai_service.py:806-818 | Reports the initialised flag, both counters, the guard's violation count and the configuration summary, changing nothing. |
| `Text.Split` | backend-core/ai_service.py:643 | `str.split()` yields only non-empty words free of whitespace. |
| `Text.SplitJoin` | backend-core/ai_service.py:643 | Splitting words joined by single spaces gives back exactly those words, so a token count is a word count. |
| `Severity.Classify` | backend-core/ai_service.py:748-757 | SEVERE iff aqi ≥ 400, VERY_POOR iff 300 ≤ aqi < 400, POOR iff 200 ≤ aqi < 300, MODERATE iff 100 ≤ aqi < 200, SATISFACTORY iff aqi < 100. |
| `Severity.AssessSeverity` | backend-core/ai_service.py:745-757 | A report without an AQI is SATISFACTORY. Otherwise the level is the ladder's band for its AQI. The returned label (`Level.Label()`, the string `_assess_severity` returns) is "SEVERE", "VERY_POOR", "POOR", "MODERATE" or "SATISFACTORY" exactly on the bands ≥ 400, 300-399, 200-299, 100-199 and below 100 of the AQI, where a missing AQI counts as 0. |
| `Severity.Monotone` | backend-core/ai_service.py:748-757 | A higher AQI never gives a lower severity. |
| `Severity.RankCountsThresholds` | backend-core/ai_service.py:748-757 | The severity's rank equals how many of the thresholds 100, 200, 300 and 400 the AQI reaches. |

## Left out

- Logging (`setup_secure_logging`, every `logger` call, the violation audit line): output only.
- `time.sleep` simulations, `time.time()` durations (`_initialization_time`, `inference_time_ms`) and `datetime.now` timestamps: clock and I/O. `Health` and `Statistics` omit the timestamp and the initialisation time.
- `threading.Lock` / `RLock`: every method is modelled as running alone. So is the unlocked `_is_initialized` test at the top of `generate`.
- `_verify_local_model_only` reads `os.environ` only to log what it finds. It is modelled as always passing.
- Float settings and values (`temperature`, `top_p`, `repetition_penalty`, `gpu_memory_fraction`, the 0.94 confidence score, `round`): not modelled. `generate` takes no temperature.
- `ModelConfig` paths and the quantisation dictionary: configuration only. The model keeps the name, version, quantisation label and integer settings.
- `analyze_pollution_report`, `_build_pollution_analysis_prompt` and `_extract_recommendations`: prompt templating and a fixed list. Their only effect on state is one `generate` call on the built prompt.
- `create_service` and the `__main__` block: process entry and I/O.
- LocalLLM.SecureLocalLLM.Generate: Dafny has no default arguments, so callers pass the classification explicitly; Python defaults it to `SecurityLevel.INTERNAL` (`Internal` here).
- LocalLLM.SecureLocalLLM.Generate: the result omits the timing, timestamp and constant attestation fields of the returned dictionary.
- Severity.AssessSeverity: the AQI is an integer or absent. A float AQI, and a present `aqi` of `None` (a `TypeError` under Python 3), are not modelled.
- The TypeScript ward-data fetch, mapping and merge code (`services/airQualityApi.ts`, `hooks/useWardData.ts`) is not part of this model.
