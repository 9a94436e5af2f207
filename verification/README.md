# Verification of the gateway core

This project models the stateful core of an LLM gateway, and proves what its documentation and tests
promise, in Dafny. `dafny verify dfyconfig.toml` checks everything.

The gateway forwards chat requests to upstream model servers. The parts modelled:

- **Circuit breaker and governed calls** (`Breaker`, `Calls`, `Governed`). A three-state breaker, a token
  bucket and a semaphore are shared by any number of concurrent calls, each of which may be turned away,
  retried, or dropped at any await. `Breaker` specifies the breaker by looking back at its history and
  has the object with its fields. `Calls` is the interleaving of calls as a step system, with a drop step
  enabled at every await. `Governed` is one call as the source writes it, with guards and the retry loop;
  each of its methods is proved to be a run of `Calls`.
- **Configuration and hot reload** (`Config`, `Validate`, `Signatures`, `Runtime`, `Registry`, `Reload`,
  `ReloadProtocol`, `ReloadRuns`, `Reloader`, `TakeOver`). Slots, buckets and providers are objects, so "the same Arc"
  is reference equality. `Signatures` is the text by which unchanged providers are recognized. `Reload` is
  the reload on values; `ReloadProtocol` splits it into its shared writes and interleaves collections and
  readers; `Reloader` is the class with its fields, whose operations are proved to be runs of the protocol;
  `TakeOver` carries out the one failure of a reload, from two documents.
- **Stream translation** (`Utf8`, `Sse`, `AnthropicMap`, `Translate`, `StreamTheorems`, `Wire`). The
  incremental event parser, the translator, and the agreement of streaming with non-streaming replies. The
  specification is: split the stream at line feeds, strip one carriage return, fold the line rule.
- **Usage store** (`Usage`, `UsageStore`, `UsageProgress`, `UsageRuns`, `UsageWriter`, `UsageShutdown`). Cost
  arithmetic in 64 and 128 bits, the bounded queue with its writer as a step system, what the writer gets done
  when left alone, the writer loop itself as a run of that system, and shutdown under a deadline.
- **Mixture of agents** (`Moa`, `Accounting`, `Framing`, `FramingScan`). Arms that finish in any order, the
  quorum gate, usage sums, the rows booked for every arm, and the framing of candidate answers.
- **SHA-256 and authentication** (`Bits`, `Sha256Constants`, `Sha256`, `Auth`). The in-place digest against
  FIPS 180-4, and the key lookup that uses it.

`Wrappers` and `Errors` hold the option, result and error types, `Sequences` and `Text` shared facts about
sequences and joined text.

What the environment decides is an input of the model: answers of the upstream and of the bucket, the
time, which await a call is dropped at, the order in which arms finish, which batches fail, the decoded
JSON payloads, the values of environment variables.

Findings. Some properties hold only under a condition, and are stated with the exact one:

- The back-off shift is defined for every reachable call exactly if the retry limit is at most 64; beyond that
  a release build starts over with the shortest back-off.
- Provider signatures are compared as joined text, and texts of different upstreams can be equal. A provider is
  bound to the slot of its upstream exactly if that does not happen, and it does not if no input holds a bar.
  Limits are right in any case.
- Cutting a stream differently can change the translation of a stream with malformed UTF-8: events completed
  in the chunk of the bad line are discarded. It cannot exactly if nothing was to be output before that line.
- A repeated stop message is answered with another end marker, and text after a stop follows the marker: the only
  marker is last exactly if there is at most one stop and no text after it.
- Framing is unambiguous exactly if the original request text has no `<<<`, which the program does not check.
- State keys are unambiguous exactly if neither address nor variable name contains the separator.
- Usage and token totals are exact exactly if they fit 64 bits.
- Buckets are kept on re-application exactly if repeated declarations of a key, which validation accepts, do not
  conflict.
- A request that holds an older snapshot, looking its limit up while no reload is replacing buckets, runs unlimited
  exactly if a reload has lifted the limit of its key since.
- A flush is answered by the turn that takes it, exactly unless it comes first and a second flush ends the turn.
  Shutdown sends only one, and that one is always answered if the writer is given the time.
- A price that reads as 2^63 nano-dollars passes validation and is stored as the largest 64-bit integer.
- A failure threshold or success count of zero acts as one.
- The write after the writer loop never has anything to write.

## Model

| member | source | states |
|---|---|---|
| `Breaker.RefinesHistory` | crates/moaray/src/breaker.rs:117-211 | After any sequence of checks, outcomes and releases the breaker state, both counters, the cool-down start and the probe flag are exactly what looking back at the sequence says: failures in a row within the closed era, probe successes since the half-open era began, the last failure, whether a probe is out |
| `Breaker.ClosedEraIsExact` | crates/moaray/src/breaker.rs:186-203 | The breaker opens at the first moment the outcomes of a closed era end in max(1, failure_threshold) failures in a row, and at no other moment |
| `Breaker.HalfOpenEraIsExact` | crates/moaray/src/breaker.rs:157-211 | A half-open era lasts exactly as long as there is no probe failure and there are fewer than max(1, half_open_successes) probe successes; the probe failure that ends it re-opens the breaker, the completing success closes it; outcomes of calls admitted before the trip change nothing |
| `Breaker.OpenEraIsExact` | crates/moaray/src/breaker.rs:124-211 | An open era ends only with a check that comes open_ms milliseconds or more after the last reported failure, and that check is the single probe; earlier checks are refused, and every failure starts the time again |
| `Breaker.AfterWellFormed` | crates/moaray/src/breaker.rs:74-86 | Every reachable breaker has a recorded cool-down start when open, a probe out only when half-open, and counters below their limits |
| `Breaker.CircuitBreaker.constructor` | crates/moaray/src/breaker.rs:96-107 | A new breaker is closed with nothing counted |
| `Breaker.CircuitBreaker.CheckAt` | crates/moaray/src/breaker.rs:117-144 | The in-place check is one step of the history specification, with 32-bit counters that cannot overflow |
| `Breaker.CircuitBreaker.OnSuccessAt` | crates/moaray/src/breaker.rs:157-181 | The in-place success report is one step of the history specification |
| `Breaker.CircuitBreaker.OnFailureAt` | crates/moaray/src/breaker.rs:186-211 | The in-place failure report is one step of the history specification |
| `Breaker.CircuitBreaker.ReleaseProbe` | crates/moaray/src/breaker.rs:227-232 | Giving back a probe slot touches the probe flag and nothing else |
| `Calls.StepKeepsCore` | crates/moaray/src/governed.rs:62-296 | Whatever any call does next (gates, answer, retry, cancellation at an await, permit release) keeps the single-probe, permit and per-call bookkeeping invariants |
| `Calls.RunKeepsInvariant` | crates/moaray/src/governed.rs:62-296 | Those invariants, and that the breaker is the one its history makes, hold after every interleaving of any number of calls |
| `Calls.SingleProbeAlways` | crates/moaray/src/breaker.rs:117-232 | In every reachable state the probe flag is set exactly while one live call owns an unsettled probe token, and then the breaker is half-open; so no stale probe can ever report |
| `Calls.SettlesExactlyOnce` | crates/moaray/src/governed.rs:103-199 | A call tells the breaker nothing while it is live, and afterwards has made exactly one report under its own admission, or was turned away and gave a reserved probe slot back exactly once |
| `Calls.OutcomesAreReports` | crates/moaray/src/governed.rs:190-199 | The outcomes in the breaker history number exactly the calls that reported, in every interleaving |
| `Calls.OnlyFaultsTrip` | crates/moaray/src/governed.rs:176-198 | As long as no call was dropped in flight and no answer was a server error, a timeout or a failed connection, the breaker is as it was at the start, however many client errors and throttled answers it was told of |
| `Calls.RetryDiscipline` | crates/moaray/src/governed.rs:81-87 | A stream, and any call with retries off, asks once; no call asks more than 1 + max_retries times; every answer but the last is a failure to connect; and a call gives up on that failure after exactly 1 + max_retries attempts, or one without retries |
| `Calls.PermitsAlwaysConserved` | crates/moaray/src/limit.rs:74-101 | Free permits plus those held by calls and open streams always equal the configured cap, and every call in flight holds one; without a cap, or with zero, no call waits for a permit |
| `Calls.NeverWedges` | crates/moaray/src/breaker.rs:117-144 | With no live call a check is refused exactly while an open breaker is within open_ms milliseconds of its last failure; any other non-closed breaker admits a probe |
| `Calls.LateFailuresBounded` | crates/moaray/src/breaker.rs:186-211 | While the breaker stays tripped, late failures restart its cool-down at most as often as there were normal calls live at the trip |
| `Calls.RestartUsesUpANormal` | crates/moaray/src/breaker.rs:186-211 | Outside the closed state no step adds a normal call, and each restart of the cool-down ends one |
| `Calls.ShiftDefinedIffLimitSmall` | crates/moaray/src/governed.rs:207-235 | The 64-bit shift of the back-off is defined in every reachable state if and only if the effective retry limit is at most 64; configuration does not bound it |
| `Governed.BackoffDoubles` | crates/moaray/src/governed.rs:219-224 | Successive sleeps double until the product no longer fits 64 bits, and then stay at the maximum |
| `Governed.BackoffStartsOver` | crates/moaray/src/governed.rs:219-224 | In a release build, where the shift amount is taken modulo 64, back-off starts over after 64 attempts |
| `Governed.ProbeReleaseGuard.Drop` | crates/moaray/src/governed.rs:103-129 | Dropping the guard gives back the probe slot exactly if it is still armed |
| `Governed.BreakerGuard.Drop` | crates/moaray/src/governed.rs:190-199 | Dropping the guard reports exactly one outcome; a call that was never finalized counts as a failure |
| `Governed.GovernedProvider.Admit` | crates/moaray/src/governed.rs:62-78 | The three gates in order leave the shared objects as the step system does, and the probe slot is kept only when all let the call pass |
| `Governed.GovernedProvider.Attempts` | crates/moaray/src/governed.rs:213-235 | The retry loop is a run of the step system; its result and its sleeps are the only ones the script allows: it asks again after exactly the failures to connect, while retries are on and below max_retries |
| `Governed.GovernedProvider.Unary` | crates/moaray/src/governed.rs:207-296 | passthrough and chat, from gates to dropped guards, are a run of the step system; result, number of sleeps and what the breaker is told follow from the verdict of the breaker, the script and the retry settings alone; every permit is back |
| `Governed.ComesToOne` | crates/moaray/src/governed.rs:207-296 | Verdict, script and settings leave one result and one number of sleeps |
| `Governed.GovernedProvider.Stream` | crates/moaray/src/governed.rs:238-272 | passthrough_stream is such a run with one attempt; exactly after a successful handshake under a cap a permit stays with the open stream |
| `Governed.GovernedProvider.Conclude` | crates/moaray/src/governed.rs:190-199 | Going out of scope reports the outcome once and returns the permit unless an open stream keeps it |
| `Governed.CloseShared` | crates/moaray/src/governed.rs:190-315 | The end of a call makes one report under its admission token and frees one permit unless an open stream holds it |
| `Governed.GatesShared` | crates/moaray/src/governed.rs:62-78 | The gates record one check, give back a reserved probe slot exactly on a later refusal, and take one permit exactly on success |
| `Config.StateKeyUnambiguousIff` | crates/moaray-config/src/runtime.rs:161-173 | The joined state key tells an upstream apart from every other one if and only if neither its address nor its key variable name contains the separator |
| `Validate.CheckGovernance` | crates/moaray-config/src/validate.rs:164-191 | Comparing each model with the first one on its state key accepts exactly when all models of a state key agree pairwise; an error names a disagreeing pair and the first field that differs |
| `Validate.CheckRecipe` | crates/moaray-config/src/validate.rs:225-275 | Accepts exactly recipes with proposers, all arms configured and 1 <= quorum <= number of proposers, and an error says truly what is wrong |
| `Validate.BuildModels` | crates/moaray-config/src/validate.rs:106-162 | Accepts exactly non-empty documents with distinct names whose entries all convert (address, limit and both prices), keeps each converted entry in key order, and an error says truly what is wrong |
| `Validate.PriceIsNearest` | crates/moaray-config/src/validate.rs:73-103 | A price is accepted exactly if it is finite, not negative and its floating-point product with 10^9 rounds to at most 2^63; it is stored as the integer nearest to that product, and 2^63 itself as the largest 64-bit integer |
| `Validate.BuildKeys` | crates/moaray-config/src/validate.rs:193-222 | Accepts exactly lists of keys that each have one kind of secret, a list of models and a limit that allows something; keeps them in order, repeated ids included |
| `Validate.InsertModel` | crates/moaray-config/src/validate.rs:137-161 | Ordered-map insertion keeps the order and adds exactly the one model |
| `Validate.ToModelMeans` | crates/moaray-config/src/validate.rs:34-103 | An entry is converted exactly if its address, limit and prices are acceptable, field by field into the model it describes, each price from its own setting and a burst of at least the rate; else the error names a true fault |
| `Validate.ToKeyMeans` | crates/moaray-config/src/validate.rs:193-222 | The same of inbound keys: exactly one kind of secret, a list of models and a limit that allows something; the digest in lower case, the plain secret from the environment |
| `Validate.Validate` | crates/moaray-config/src/validate.rs:106-296 | The whole check of models, keys and recipes accepts exactly acceptable documents, and what it returns has distinct names and consistent governance |
| `Runtime.UpstreamState.constructor` | crates/moaray/src/runtime.rs:84-95 | A new slot really enforces the limits it is recorded as built from, with a fresh closed breaker |
| `Runtime.StatefulState.EnsureForConfig` | crates/moaray/src/runtime.rs:186-202 | Afterwards each upstream of the configuration has a slot with its limits: the same object where the limits are unchanged, a new one otherwise; other slots are untouched |
| `Runtime.StatefulState.InstallKeyLimiters` | crates/moaray/src/runtime.rs:217-233 | Each rate-limited key has a bucket with the limit of its last declaration, the same object exactly if every declaration asks for the limit it had, a new one otherwise; the count is zero exactly if nothing changed |
| `Runtime.StatefulState.RetainForConfig` | crates/moaray/src/runtime.rs:247-258 | Exactly the slots of the given configuration survive, as the same objects, and the count is the number removed |
| `Runtime.StatefulState.RetainKeyLimiters` | crates/moaray/src/runtime.rs:266-276 | Exactly the buckets of keys with a limit survive, and the count is the number removed |
| `Runtime.LimitedHasLast` | crates/moaray/src/runtime.rs:217-233 | A key is rate-limited by some declaration exactly when it has a last such declaration |
| `Signatures.EqualTextsEqualLimits` | crates/moaray/src/registry.rs:49-81 | Whatever addresses, names and keys hold, two models whose signature texts are equal have the same provider type, token default, retry policy, limits and breaker settings |
| `Signatures.BarFreeTextsAreInjective` | crates/moaray/src/registry.rs:49-81 | If no address, variable name, key or label holds the separator, equal signature texts mean equal inputs |
| `Signatures.TextsCollide` | crates/moaray/src/registry.rs:49-81 | In general they do not: for every address there are two upstreams with different state keys and the same signature text |
| `Registry.BarFreeReuseIsTrue` | crates/moaray/src/registry.rs:129-139 | Without separators in the inputs, then and now, reuse never takes a provider over from another upstream |
| `Registry.BuildProvidersWith` | crates/moaray/src/registry.rs:115-179 | Fails exactly when some model is neither reusable nor has a slot; otherwise each model gets the previous object if its signature text is unchanged, else a new provider bound to the very slot under its state key |
| `Reload.ReusedHasOwnLimits` | crates/moaray/src/registry.rs:129-139 | A reused provider has a slot with the limits its model asks for, even one taken over from another upstream |
| `Reload.RebuiltIsBound` | crates/moaray/src/reload.rs:144-226 | A provider, reused or new, is bound to the current slot of its model if and only if it was not taken over from another upstream by an equal signature text |
| `Reload.ReloadSettles` | crates/moaray/src/reload.rs:144-265 | A completed reload of a validated configuration leaves every provider under its own model's limits, a slot for every upstream, every limited key and no other with a bucket, and orphans only while a collection is pending |
| `Reload.RebuiltServes` | crates/moaray/src/registry.rs:49-139 | What a reload serves a model with, whatever was reused, has the provider type, retry policy, token default and limits of the new configuration; without separators it also has the address, names and key of now, and is the object from before exactly if nothing it was built from has changed |
| `Reload.ReloadServes` | crates/moaray/src/reload.rs:144-226 | After every completed reload that holds of every model |
| `Reload.ReloadBindsIff` | crates/moaray/src/reload.rs:144-226 | After a reload every provider is bound to the very slot under its state key if and only if no signature text of another upstream was equal; so always if no input holds the separator |
| `Reload.FalseReuseExists` | crates/moaray/src/registry.rs:129-139 | It can fail: for every address there are two sound configurations of one model such that a start with the first and a reload to the second take the provider over to the other upstream |
| `TakeOver.TakeOverHappens` | crates/moaray/src/registry.rs:129-139 | For every address there are two documents that pass validation such that a gateway started with the first and reloaded to the second completes the reload and serves the model with a provider not bound to the slot of its upstream |
| `Reload.KeepsSlotIffGovernanceUnchanged` | crates/moaray/src/runtime.rs:186-202 | An upstream in both configurations keeps its slot object if and only if its limits and breaker settings are unchanged, whatever names and labels change |
| `Reload.ReinstallIsIdentityIff` | crates/moaray/src/runtime.rs:217-233 | Installing the limits in force again keeps every bucket object if and only if no two declarations of one key conflict |
| `Reload.ConflictingKeyLosesBucket` | crates/moaray/src/runtime.rs:217-233 | One key declared with two limits loses its bucket object every time the same configuration is applied |
| `Reload.ReapplyChangesNothing` | crates/moaray/src/reload.rs:144-226 | Applying the running configuration again in an unchanged environment keeps every slot and provider object and the snapshot, and the buckets if and only if no two declarations of a key conflict |
| `Reload.CollectionSettles` | crates/moaray/src/reload.rs:252-265 | A collection keeps exactly the slots of the live configuration, as the same objects |
| `Reloader.ConfigReloader.constructor` | crates/moaray/src/reload.rs:90-103 | Startup establishes the settled and bound state, every provider built from the configuration and environment of the moment |
| `Reloader.ConfigReloader.Stage` | crates/moaray/src/reload.rs:175-191 | After the slots are ensured the provider build cannot fail |
| `Reloader.ConfigReloader.Publish` | crates/moaray/src/reload.rs:208-252 | Buckets are installed, the snapshot published with the startup usage store, the build remembered, dead buckets reclaimed, and a collection scheduled exactly if an upstream is gone; a bucket that differs from before is a new object |
| `Reloader.ConfigReloader.Apply` | crates/moaray/src/reload.rs:144-283 | A reload of a validated configuration always completes and is a run of the reload protocol; every model is served as the new configuration says; it ends bound exactly if nothing is taken over, spawns a collection exactly if an upstream is gone, and on the running configuration replaces buckets exactly if declarations conflict |
| `Reloader.ConfigReloader.Collect` | crates/moaray/src/reload.rs:252-265 | A collection runs against the configuration live by then, leaves exactly its slots, and is a run of the reload protocol |
| `ReloadProtocol.StepKeepsInvariant` | crates/moaray/src/reload.rs:118-265 | Every single shared write of a reload or collection, and every reader in between, keeps the protocol invariant |
| `ReloadProtocol.RunKeepsInvariant` | crates/moaray/src/reload.rs:118-265 | So does every interleaving of reloads, collections and readers |
| `ReloadProtocol.StepKeepsBinding` | crates/moaray/src/reload.rs:118-265 | No step unbinds a published or finished provider, unless it takes one over from another upstream |
| `ReloadProtocol.NoCoverageGap` | crates/moaray/src/reload.rs:118-232 | At every instant each upstream of the published configuration has a slot and each rate-limited key of it a bucket |
| `ReloadProtocol.ProvidersUnderOwnLimits` | crates/moaray/src/reload.rs:144-226 | At every instant, and whatever was reused, each published provider works under its own model's limits |
| `ReloadProtocol.ProvidersBoundToSlots` | crates/moaray/src/reload.rs:144-226 | As long as no provider is taken over from another upstream, whenever the lock is free each published provider is bound to the object in the slot map under its state key; aliases and recipe arms share one slot |
| `ReloadProtocol.BarFreeRunsStayBound` | crates/moaray/src/reload.rs:144-226 | In particular in every run in which no address, variable name, label or key value holds the separator |
| `ReloadProtocol.PinnedSnapshotsStayCoherent` | crates/moaray/src/reload.rs:242-251 | A snapshot a request pinned stays complete and under its own limits whatever is reloaded or collected meanwhile, and its aliases share slots as long as nothing is taken over |
| `ReloadProtocol.LookupFollowsPublished` | crates/moaray/src/runtime.rs:290-295 | A request that pinned a limited key finds a bucket at least if the published configuration limits the key, and while no reload is replacing buckets exactly then, with the published limit; while one is, exactly the buckets of the old and the new configuration are there that are already installed and not yet reclaimed |
| `ReloadProtocol.ReusedIsBound` | crates/moaray/src/registry.rs:129-139 | While a reload is half done, a reusable provider is still bound to the slot in the map, unless it is of another upstream |
| `ReloadProtocol.BuildNeverFails` | crates/moaray/src/registry.rs:161-168 | The fail-closed error is unreachable in a reload |
| `ReloadProtocol.ReloadNeverFails` | crates/moaray/src/reload.rs:118-232 | In every reachable state the failing step is impossible and the next building step possible |
| `ReloadRuns.LockIsAlwaysFreed` | crates/moaray/src/reload.rs:118-265 | From every state, with the objects that constructors supply, some run ends with the lock free and the configuration of the reload in progress published |
| `ReloadRuns.CompleteReload` | crates/moaray/src/reload.rs:118-265 | In every reachable state the constructors can supply them: a reload that began can always be completed |
| `ReloadRuns.WholeReload` | crates/moaray/src/reload.rs:144-252 | Ensuring, building, installing, publishing and reclaiming, one shared write at a time, end where the reload as a whole ends |
| `ReloadProtocol.CollectionSparesLive` | crates/moaray/src/reload.rs:252-265 | Collection never removes a slot the live configuration uses, even one removed and added again since it was scheduled |
| `ReloadProtocol.CollectionIsExact` | crates/moaray/src/runtime.rs:247-258 | When a collection is done the slot keys are exactly the live upstreams |
| `ReloadProtocol.OrphansHaveATask` | crates/moaray/src/reload.rs:252-265 | While the lock is free, an orphan slot implies a collection that is still pending |
| `ReloadProtocol.UsageStoreIsFrozen` | crates/moaray/src/reload.rs:208-226 | The usage store named by the published configuration never changes |
| `Utf8.EncodeDecodes` | crates/moaray-providers/src/anthropic_sse.rs:41-75 | Encoding any text gives bytes that are valid and decode back to it |
| `Utf8.AsciiSplits` | crates/moaray-providers/src/anthropic_sse.rs:41-55 | A stream cut at any byte below 0x80 is valid exactly when both parts are: such a byte is never inside a longer character (section 3 of RFC 3629) |
| `Utf8.EncodeKeepsAscii` | crates/moaray-providers/src/anthropic_sse.rs:41-55 | An ASCII byte occurs in an encoding exactly when its character occurs in the text |
| `Sse.SseParser.Push` | crates/moaray-providers/src/anthropic_sse.rs:41-75 | One chunk yields the events of folding exactly the lines complete by now, keeps only the unfinished rest, fails exactly on a line that is not UTF-8, and its loop terminates |
| `Sse.SseParser.TakeLine` | crates/moaray-providers/src/anthropic_sse.rs:56-72 | A decoded line dispatches, extends the current event, or is ignored, as the line rule says |
| `Sse.SseParser.DrainLine` | crates/moaray-providers/src/anthropic_sse.rs:44-50 | Takes the first complete line out of the buffer without its line feed and one carriage return |
| `Sse.FeedAll` | crates/moaray-providers/src/anthropic_sse.rs:91-100 | Feeding chunks one by one gives the events and verdict of the chunked fold |
| `Sse.ChunkIndependence` | crates/moaray-providers/src/anthropic_sse.rs:27-75 | However a byte stream is cut, the parser yields the events and verdict of folding the lines of the whole stream |
| `Sse.VerdictIsWholeStreamUtf8` | crates/moaray-providers/src/anthropic_sse.rs:27-55 | Decoding line by line accepts exactly the streams that are UTF-8 as a whole up to their last line feed |
| `Sse.FirstLfIsFirst` | crates/moaray-providers/src/anthropic_sse.rs:44-45 | The position found is that of the first line feed |
| `Sse.TrimMeans` | crates/moaray-providers/src/anthropic_sse.rs:65-70 | Trimming takes all white space off both ends and nothing else |
| `Sse.WhiteSpaceIs` | crates/moaray-providers/src/anthropic_sse.rs:65-70 | White space is the 25 code points with that Unicode property |
| `Translate.Translator.OnEvent` | crates/moaray-providers/src/anthropic_sse.rs:101-175 | One event updates id, finish reason and end flag and yields frames as the message rule says; an unsupported block ends the stream |
| `Translate.Translate` | crates/moaray-providers/src/anthropic_sse.rs:80-185 | The whole translation is the recursive reading of the upstream chunks, stopping at the first error |
| `StreamTheorems.ErrorIsLast` | crates/moaray-providers/src/anthropic_sse.rs:80-185 | Nothing follows an error item, whether it comes from transport, decoding or translation |
| `StreamTheorems.TransportErrorEnds` | crates/moaray-providers/src/anthropic_sse.rs:85-90 | A transport error is passed on after the translation of everything before it, and ends the output |
| `StreamTheorems.TranslationChunkIndependence` | crates/moaray-providers/src/anthropic_sse.rs:80-185 | Every way of cutting a stream gives the output of a single chunk if and only if the stream decodes or nothing was to be output before its first bad line |
| `StreamTheorems.ExactlyOneDoneIff` | crates/moaray-providers/src/anthropic_sse.rs:160-185 | A stream translated to its end carries at least one end marker, and exactly one if and only if the upstream sent at most one stop message |
| `StreamTheorems.TwoStopsTwoDones` | crates/moaray-providers/src/anthropic_sse.rs:160-175 | Two stop messages are answered with two end markers |
| `StreamTheorems.OnlyDoneIsLastIff` | crates/moaray-providers/src/anthropic_sse.rs:160-185 | The output ends in its only end marker if and only if there is at most one stop message and no text after it |
| `StreamTheorems.TextAfterStop` | crates/moaray-providers/src/anthropic_sse.rs:130-175 | A stop message and then a text delta: the only end marker is not the last item |
| `StreamTheorems.TranslationEndsWithOnlyDoneIff` | crates/moaray-providers/src/anthropic_sse.rs:80-185 | The same of the translation of a byte stream that decodes, however it is cut |
| `Wire.CutsCanMatter` | crates/moaray-providers/src/anthropic_sse.rs:91-100 | A stop event with the data {} followed by a bad line is a stream whose output depends on the cut |
| `StreamTheorems.ReplyOutput` | crates/moaray-providers/src/anthropic_sse.rs:80-185 | A reply streamed as text deltas, with ignorable events anywhere, yields one content frame per delta and then the closing frames |
| `StreamTheorems.LastWordCounts` | crates/moaray-providers/src/anthropic_sse.rs:110-165 | A later id or stop reason replaces an earlier one, an absent one does not, max_tokens reads as length, and a delta without text yields no frame |
| `StreamTheorems.StreamingAgrees` | crates/moaray-providers/src/anthropic_map.rs:112-161 | Those frames carry exactly the text, id and finish reason of the non-streaming translation of the same reply, and end in the only end marker |
| `AnthropicMap.AnthropicToOpenai` | crates/moaray-providers/src/anthropic_map.rs:123-161 | Refused exactly when some block is not text, naming the first; otherwise the whole text in order, the id and token counts with their defaults, the finish reason length exactly for max_tokens; the 64-bit total is exact if and only if it fits |
| `Wire.WireRoundTrip` | crates/moaray-providers/src/anthropic_sse.rs:41-75 | Events written with either line end, with or without a type line, with data in several lines and among comments and other fields, are read back as exactly those events |
| `Wire.StreamedReplyEndToEnd` | crates/moaray-providers/src/anthropic_sse.rs:80-185 | From bytes to frames: message_start, text blocks and deltas, message_delta and message_stop, named on the type line or in the payload, among anything ignorable and cut anywhere, give the frames of the non-streaming translation |
| `Wire.TranslateBoth` | crates/moaray-providers/src/anthropic_sse.rs:80-185 | Both translations of one reply agree on text, id and finish reason |
| `Wire.CutShortEndToEnd` | crates/moaray-providers/src/anthropic_sse.rs:176-184 | A stream that ends without its stop message is closed in the same way |
| `Wire.UnsupportedEndsStream` | crates/moaray-providers/src/anthropic_sse.rs:119-146 | The first block or delta that is not text ends the output, after the text before it, with an error that names it |
| `Wire.CarriedIsRead` | crates/moaray-providers/src/anthropic_sse.rs:101-175 | An event is read as what its name and payload say, and as nothing if its data is blank or not JSON or its name is none of the five |
| `UsageStore.StepKeepsInvariant` | crates/moaray-store/src/lib.rs:126-270 | Every step of a sender, of the writer or of the shutdown keeps order, sizes, counts and flush marks |
| `UsageStore.NothingLostOrReordered` | crates/moaray-store/src/lib.rs:193-270 | Attempted batches, buffer and queue together are always the accepted rows in order; with no failed batch the database holds exactly the attempted rows |
| `UsageStore.SizesAlwaysBounded` | crates/moaray-store/src/lib.rs:126-136 | Batches have 1 to batch rows, the queue never exceeds its capacity, and accepted plus dropped equals recorded |
| `UsageStore.RowIsDroppedIff` | crates/moaray-store/src/lib.rs:126-136 | A row is dropped exactly if the queue holds its capacity or the writer has left; otherwise it joins the end of the queue |
| `UsageStore.FlushAckIsDurable` | crates/moaray-store/src/lib.rs:209-232 | An acknowledged flush means every row accepted before it was sent is in an attempted batch, and stored if no batch failed |
| `UsageStore.ExitIsDurable` | crates/moaray-store/src/lib.rs:149-180 | When the writer has exited the same holds for every row accepted before the stop, and for all rows if no stop was sent |
| `UsageStore.LastWriteIsEmpty` | crates/moaray-store/src/lib.rs:193-237 | The buffer is always empty when the loop ends, so the write after it never writes |
| `UsageWriter.WriterLoop` | crates/moaray-store/src/lib.rs:193-237 | From any queue and with any arrivals: the loop and the write after it store exactly the rows they consumed, in order, in batches of 1 to batch rows; the database gains the batches that succeeded; each acknowledgement answers a consumed flush with nothing consumed left unwritten; and it is a run of the usage store that ends with the writer gone and the rest of the messages in the queue |
| `UsageShutdown.ShutdownIsHonest` | crates/moaray-store/src/lib.rs:149-180 | Whichever wait of the shutdown times out: rows accepted before an acknowledged flush are durable even if the writer is detached, and rows before the stop, or all of them, once it is joined |
| `UsageShutdown.EarlyReturnIsComplete` | crates/moaray-store/src/lib.rs:149-180 | Nothing is given up before the deadline: a call that returns earlier had its flush acknowledged and its stop accepted and has joined the writer; one that detached returned at the deadline or later |
| `UsageShutdown.ReturnsOnceOverdue` | crates/moaray-store/src/lib.rs:149-180 | All waits share the deadline fixed at the call: a wait can be given up exactly from then on, the call can then return without any help whatever senders and writer do, so letting the time pass is always enough, and it never makes more than four moves |
| `UsageShutdown.WriterAnswersHandle` | crates/moaray-store/src/lib.rs:149-237 | While the call waits, the writer left alone acknowledges its flush, or leaves after its stop, within a bounded number of steps, whichever transactions fail; it never leaves before the stop was sent |
| `UsageProgress.WriterLeavesIff` | crates/moaray-store/src/lib.rs:193-237 | From every reachable state the writer alone takes a bounded number of steps until it is stuck, and then it has left if and only if the stop was sent or the senders are gone |
| `UsageProgress.DroppedIffOvertaken` | crates/moaray-store/src/lib.rs:193-237 | After any run of senders, writer and shutdown, a sent flush is neither queued nor pending nor acknowledged if and only if at some step the drain found another flush while this one was pending |
| `UsageProgress.FlushAnsweredIff` | crates/moaray-store/src/lib.rs:193-237 | Of the flushes in the queue the writer, left alone, acknowledges exactly those that a turn takes, at the latest the one that takes the stop, and that no second flush of that turn overtakes |
| `UsageProgress.OnlyFlushStands` | crates/moaray-store/src/lib.rs:149-237 | If only one flush was ever sent, as shutdown does, it is at every instant queued, pending or acknowledged |
| `UsageProgress.SecondFlushOvertakesFirst` | crates/moaray-store/src/lib.rs:201-227 | Two flushes in a row are one turn that acknowledges only the second |
| `UsageWriter.Gather` | crates/moaray-store/src/lib.rs:196-227 | One turn takes at least one message and at most batch rows and forgets none |
| `UsageWriter.Drain` | crates/moaray-store/src/lib.rs:209-227 | The greedy drain stops at the batch size, a flush or the stop, and keeps every row it took |
| `UsageWriter.AllKept` | crates/moaray-store/src/lib.rs:240-270 | With no failed transaction the rows kept are all rows of all batches |
| `Usage.CostNeverOverflows` | crates/moaray-core/src/usage.rs:145-168 | For all 64-bit inputs no 128-bit intermediate overflows and the cost is between 0 and the 64-bit maximum |
| `Usage.SideTruncates` | crates/moaray-core/src/usage.rs:145-168 | For tokens and prices of either sign a side is the product plus half a million divided by a million towards zero |
| `Usage.RoundsToNearest` | crates/moaray-core/src/usage.rs:145-168 | Each side is the integer nearest to the exact quotient, ties upward |
| `Usage.CostMonotone` | crates/moaray-core/src/usage.rs:145-168 | More tokens or a higher price never cost less |
| `Usage.CostIsAccurate` | crates/moaray-core/src/usage.rs:145-168 | Below saturation the cost is within one nano-USD of the exact value; it saturates only when the value does not fit |
| `Usage.FreeIffBelowHalf` | crates/moaray-core/src/usage.rs:145-168 | Unmeasured or unpriced is never recorded as free; what is measured and priced costs zero exactly when each side is below half a nano-USD |
| `Moa.SortRestoresRecipeOrder` | crates/moaray-moa/src/orchestrator.rs:305-318 | For every order in which the arms finish, sorting what arrives by index gives recipe order, for outcomes and for responses |
| `Moa.SortedIsUnique` | crates/moaray-moa/src/orchestrator.rs:315-316 | Indices are distinct, so the sorted collection is determined by its members alone |
| `Moa.FanOut` | crates/moaray-moa/src/orchestrator.rs:437-463 | The runs come in the order the arms finish, one per arm |
| `Moa.Collect` | crates/moaray-moa/src/orchestrator.rs:305-318 | The partition loop and the two sorts compute the sorted outcomes and responses |
| `Moa.Propose` | crates/moaray-moa/src/orchestrator.rs:286-318 | After the fan-out, outcomes and responses are those of the recipe, in recipe order, whatever the order of completion |
| `Moa.Run` | crates/moaray-moa/src/orchestrator.rs:286-434 | A whole run gives the same result for every order of completion; the aggregator, asked exactly at quorum, sees the sanitized texts of the arms that answered, numbered in recipe order; each outcome is that of its arm; an unknown recipe is refused before any arm runs |
| `Moa.RunTells` | crates/moaray-moa/src/orchestrator.rs:174-434 | Outcomes, quorum error, question and answer in terms of the fates of the arms and the aggregator alone |
| `Moa.QuorumGate` | crates/moaray-moa/src/orchestrator.rs:320-366 | The aggregator is asked if and only if at least quorum arms are ok and it has a provider; otherwise the error carries the exact counts; there is one outcome per proposer in recipe order |
| `Moa.SumUsage` | crates/moaray-moa/src/orchestrator.rs:151-165 | The merged object has exactly the keys that are integers somewhere, each the 64-bit sum over all objects |
| `Moa.AddFields` | crates/moaray-moa/src/orchestrator.rs:151-165 | Adding one object gives the same accumulator for every order of its keys |
| `Moa.Aggregate` | crates/moaray-moa/src/orchestrator.rs:366-434 | Timeout, error and answer of the aggregator each carry its outcome and all proposer outcomes |
| `Accounting.BookMoaArm` | crates/moaray/src/app.rs:569-617 | One row is added, with the arm's identity, tokens, price snapshot, status and cost |
| `Accounting.RunMoa` | crates/moaray/src/app.rs:467-564 | Rows are booked before the outcome is looked at, whatever it is; only a request that does not parse and an unknown recipe, refused in that order, book none |
| `Accounting.CostIffOk` | crates/moaray/src/app.rs:446-460 | A booked row has a cost if and only if its status is ok |
| `Accounting.EveryArmIsBooked` | crates/moaray/src/app.rs:504-617 | On every path after the fan-out there is one row per proposer in recipe order and one for the aggregator if it was called, each with the identity and tokens of its arm, the configured prices of its model, the status its fate deserves, and a cost exactly if that is ok |
| `Accounting.BooksConserve` | crates/moaray/src/app.rs:504-536 | The token columns of the booked rows and the usage objects of the answers add up to the same exact numbers |
| `Accounting.UsageConserved` | crates/moaray-moa/src/orchestrator.rs:404-433 | On a successful run the client's totals are the 64-bit sums over the booked rows, and equal the exact sums if and only if those fit |
| `Accounting.TotalsCanWrap` | crates/moaray-moa/src/orchestrator.rs:151-165 | A run of one proposer and the aggregator whose client total is not the sum over the rows, because that leaves 64 bits |
| `Framing.CandidateBlock` | crates/moaray-moa/src/strategy.rs:58-74 | The rendered block is the request text and the numbered framed candidates, in order |
| `Framing.OriginalUserText` | crates/moaray-moa/src/strategy.rs:91-100 | Every message with text, tagged by role, in order |
| `Framing.SanitizedHasNoMarks` | crates/moaray-moa/src/strategy.rs:84-86 | Sanitized text contains neither delimiter mark |
| `Framing.SanitizeKeepsText` | crates/moaray-moa/src/strategy.rs:84-86 | Sanitizing keeps the length and every character but angle brackets, which become their look-alikes, and changes nothing in a text without marks |
| `Framing.OneMoreMessage` | crates/moaray-moa/src/strategy.rs:91-100 | A message with text adds a line that begins with its role in brackets; one without adds nothing |
| `FramingScan.ScanParts` | crates/moaray-moa/src/strategy.rs:58-74 | Reading the framed candidates back delimiter by delimiter gives exactly the sanitized candidates in order, for any number of them |
| `FramingScan.ScanCountsMarks` | crates/moaray-moa/src/strategy.rs:58-74 | Whatever reads as n candidates has exactly 2n opening marks |
| `FramingScan.FramingRoundTrip` | crates/moaray-moa/src/strategy.rs:58-86 | Reading the rendered block recovers the sanitized candidates in order if and only if the original request text contains no opening mark |
| `FramingScan.CopiedDelimiterBreaksScan` | crates/moaray-moa/src/strategy.rs:58-86 | A request text that is a copied delimiter keeps the candidate from being read back |
| `Bits.BitwiseMeans` | crates/moaray/src/auth.rs:111-130 | Each bit of a bitwise operation is the operation on the two bits |
| `Bits.NotMeans` | crates/moaray/src/auth.rs:121-122 | Each bit of a complement is flipped |
| `Bits.RotateMeans` | crates/moaray/src/auth.rs:111-125 | Rotation moves bit i + n (modulo 32) to bit i (section 3.2 of FIPS 180-4) |
| `Bits.ShiftMeans` | crates/moaray/src/auth.rs:111-112 | Shifting moves bit i + n to bit i |
| `Sha256Constants.FirstPrimes` | crates/moaray/src/auth.rs:84-97 | The list the constants start from holds every prime up to 311 and nothing else, in ascending order |
| `Sha256Constants.RoundConstants` | crates/moaray/src/auth.rs:84-97 | The 64 constants are the first 32 bits of the fractional parts of the cube roots of the first 64 primes (section 4.2.2 of FIPS 180-4) |
| `Sha256Constants.RoundConstantOf` | crates/moaray/src/auth.rs:84-97 | The constant of round t belongs to the t-th prime |
| `Sha256Constants.InitialValues` | crates/moaray/src/auth.rs:80-83 | The initial value comes in the same way from the square roots of the first eight (section 5.3.3 of FIPS 180-4) |
| `Sha256.Pad` | crates/moaray/src/auth.rs:97-102 | The padding loop terminates with the padding of section 5.1.1: the input, one set bit, zeros and the bit length in 64 big-endian bits, in whole blocks |
| `Sha256.PaddingReadsBack` | crates/moaray/src/auth.rs:97-102 | Padding fills whole blocks with fewer than 73 added bytes, ends in the bit length, and can be undone |
| `Sha256.PaddingIsInjective` | crates/moaray/src/auth.rs:97-102 | No two inputs of whatever length are padded to the same message |
| `Sha256.MessageSchedule` | crates/moaray/src/auth.rs:104-117 | The first 16 words written most significant byte first are the chunk; each later one is the sum modulo 2^32 of two earlier ones and two scrambled ones (section 6.2.2) |
| `Sha256.WordIsBigEndian` | crates/moaray/src/auth.rs:107-110 | A word is the number that its four bytes write, most significant first |
| `Sha256.ChMeans` | crates/moaray/src/auth.rs:121-122 | Ch chooses between two bits |
| `Sha256.MajMeans` | crates/moaray/src/auth.rs:128-129 | Maj is the majority of three bits |
| `Sha256.SigmasAreParities` | crates/moaray/src/auth.rs:113-129 | Each of the four sigma functions is, at every bit, the parity of three bits at the distances of section 4.1.2 |
| `Sha256.RoundIsUndone` | crates/moaray/src/auth.rs:119-138 | The working variables before a round can be recovered from those after it |
| `Sha256.CompressAdds` | crates/moaray/src/auth.rs:139-141 | A block adds its working variables to the hash value, each modulo 2^32 |
| `Sha256.AddReversed` | crates/moaray/src/auth.rs:113-116 | The program adds the four words in the opposite order of the standard, with the same result modulo 2^32 |
| `Sha256.RoundInPlace` | crates/moaray/src/auth.rs:119-138 | Shifting the eight working variables in place is one round of section 6.2.2 |
| `Sha256.CompressInPlace` | crates/moaray/src/auth.rs:104-142 | One chunk replaces the hash value by the next one of section 6.2.2, in place |
| `Sha256.Digest` | crates/moaray/src/auth.rs:79-148 | For input of any length the text is that of the standard's hash value with the length field modulo 2^64; below 2^61 bytes it is the standard's digest |
| `Sha256.DigestText` | crates/moaray/src/auth.rs:143-147 | A digest is 64 lower-case hexadecimal digits from which the eight words read back |
| `Auth.CtEq` | crates/moaray/src/auth.rs:33-42 | The accumulated difference is zero exactly for equal byte strings |
| `Auth.ConfiguredDigestOpens` | crates/moaray-config/src/validate.rs:199-203 | A key configured by digest opens for exactly the tokens with that digest, in whatever letter case it was written |
| `Auth.UnsetKeyNeverOpens` | crates/moaray-config/src/validate.rs:196-202 | A key configured by a variable opens for exactly the non-empty value of that variable, so for nothing if it is unset |
| `Auth.Authenticate` | crates/moaray/src/auth.rs:45-64 | Returns the first configured key whose secret or digest the trimmed token has; refuses exactly a blank token or one that opens no key |

## Left out

- HTTP handlers, middleware, reqwest clients, header handling, tracing and metrics: input and output only.
- The token bucket algorithm, the Tokio semaphore, DashMap, ArcSwap, the channel and SQLite: libraries, modelled as an allow or deny input, a counter, a map, a variable, a bounded queue and an atomic append.
- Concurrency inside one class method: `Governed`, `Reloader` and `UsageWriter` run one call, reload or loop at a time; interleavings are the subject of `Calls`, `ReloadProtocol` and `UsageStore`, and each method is tied to them by being one of their runs.
- `chat` and `passthrough` differ only in payload types and share one method, `Governed.GovernedProvider.Unary`, whose upstream answer carries no payload.
- Parsing of YAML, JSON and URLs, and environment lookup: given values. `Translate` takes the JSON decoder as a parameter.
- The floating-point product of a price with 10^9: what it comes to is given with the price.
- Validate.BuildKeys: digests are lowered by ASCII letters; other letters never occur in a digest.
- `openai_to_anthropic`, the request direction: a field by field mapping.
- `extract_text` and `value_to_text`: the text of a response or message is given.
- Moa.SumUsage: sums wrap around as in a release build; a debug build stops instead.
- AnthropicMap.AnthropicToOpenai: the total of the tokens wraps around as in a release build; a debug build stops instead.
- Governed.BackoffStartsOver: a shift by 64 or more stops a debug build; the model follows the release build.
- Send and receive on a closed channel during shutdown: while the handle waits, neither end can be gone (`UsageShutdown.WriterAnswersHandle`). That a shutdown wait polls its event before its clock is not modelled: from the deadline on it may do either.
- ReloadProtocol.CollectionIsExact: no full drain window is claimed for a removal; a collection left from an earlier removal may run early after remove, add, remove.
- Auth.CtEq: the time it takes is not modelled.
- Sha256.Digest: a token of 2^61 bytes or more cannot occur in practice; there the 64-bit length field wraps around and the text is no longer the standard's digest.
- Sse.ChunkIndependence: conformance with section 9.2.6 of the HTML Standard is not claimed; the parser handles a subset on purpose.
- Arm timeouts and the request deadline: whether an arm times out is an input.
- `route`, the error envelope, `/v1/models`, frozen-field warnings and reload summaries: a reading of one branch settles them.
