# ocharted: a verified model

ocharted is a registry proxy that turns Helm repositories into OCI artifacts on demand. It keeps no state that
matters: its caches and fast paths are meant to change how much work an answer takes, never the answer. This
project states that claim for a model of the program and proves it, together with the bounds and round trips the
claim rests on.

Verify with `dafny verify dfyconfig.toml` (Dafny 4.11).

## How the model is laid out

| modules | of the program |
|---|---|
| `Wrappers`, `Text`, `Queries` | optional values, results, and the few string, URL-query and integer-parsing functions of Go's library in use |
| `ArtifactCaches`, `CacheInvariants`, `CacheStack`, `CacheRuns`, `Holdings` | the byte-bounded LRU of derived artifacts: a class over a recency list and a key index, the function of the state it computes, its invariant over runs, the stack property, of traces and of a replica's own runs, and what a replica can answer from it alone |
| `Metadata`, `Oci`, `Building`, `Signing` | an artifact and a signature as functions of their inputs, metadata normalisation, and the construction as it runs |
| `Upstreams`, `IndexCaches`, `IndexRuns`, `IndexedWorlds` | index lookups and verified downloads; the index cache as a class with its eviction loops; its calls interleaved against a clock; the resolver over it |
| `Rewriting`, `RewriteLaws`, `RewriteInPlace`, `Decoding`, `RewriteBuilds` | dependency rewriting as a function of a YAML tree, what it keeps, the loops that assign in place on linked nodes, decoding as a function of the tree, and the chart built afterwards |
| `Resolvers`, `Sessions`, `Transparency`, `Replicas`, `Pulls`, `Derivations`, `Work`, `Mislabelled` | the four kinds of lookup as a class proved against step functions; whole runs; equality with a cache-free definition; what can be pulled; what a build comes to, exchange by exchange; how many builds a request starts |
| `Flights`, `FlightInvariants`, `FlightAnswers`, `FlightPulls`, `FlightWork`, `FlightRechecks`, `FlightProgress`, `FlightAlone` | the same lookups as an interleaved machine: cache check, join or lead a flight, recheck, read the index, build, add, return; its answers, its work, that it ends, and what one client alone comes to |
| `Tagging`, `TagLists`, `Pagination`, `Crawls` | tags and versions, kinds of reference, the listing and its pages |
| `Routes`, `Serving`, `ServedListings` | paths, and the registry as its clients see it, its listings paged |
| `Addresses`, `Networks`, `Credentials` | bypass networks, the forwarding chain, the credentials list |

A state-changing operation is a method whose postcondition equates the new state with a function of the old; the
theorems are about those functions. Upstream is a stream of sites, one per exchange, so it may change at will between
any two exchanges of a lookup; theorems of equality suppose only that one chart's part of it stands still. What the
index cache hands the resolver is one such exchange; `IndexedWorlds` puts the two together.

## Hypotheses

They are predicates in the model, and every theorem names those it needs.

* `CollisionFree`: no two byte strings share a SHA-256. `ManifestRoundTrips`: clients read back the manifest that was
  marshalled. `IsDigest` of a digest: it is spelt with 64 lower-case hexadecimal digits, as the handler demands.
* `NameOk`: repo and chart hold no `@` and the chart no `/`. `Routes.PrintParse` derives it for every path served.
* `Steady`: the one chart spoken of stands still, that is the entries its index lists for it and what each of them
  derives. `SteadyOrFailing`: it may also fail at any moment. `Undisturbed` and `Disturbed` say the same of single
  exchanges and imply them. Of every other chart, in the same repo or elsewhere, nothing is supposed: it may change at
  will and be mislabelled. `Frozen`, all of upstream standing still, is a special case.
* `Unmistaken`: whatever version of the chart resolves to an artifact that declares this version, this version resolves
  to it too. The artifact cache files a chart under its declared version but is asked for index versions, so this is
  exactly what transparency of one version takes (`Transparency.AlwaysColdIffUnmistaken`). Digest lookups take
  `ListedUnmistaken`, that no version the index lists for the chart can be mistaken: a declared version that is not
  listed at all does them no harm. `VersionAgreement` of the chart's own entries implies both.
* `WithinScan`, `Passable`, `FastPathResolves`: the entry is among the first `ScanLimit` of the index, those before it
  build or fail skippably (exactly when: `Derivations.PassableExactly`), and the entry that publishes the digest, if one
  does, resolves.
* `PlainHash`: no hash, as printed in hexadecimal, begins with `sha256:`. The exact laws of downloads and builds take it,
  since the code strips that prefix off the published digest and compares what is left.
* `ToolsInvert`: what the YAML parser returns is a document; a tree it returned, URLs exchanged or not, is read back as
  it was printed; and unpacking undoes packing.
* `DecodesTrees`: on trees without aliases the YAML decoder is the function `Decoding.DecodeDocument` of the tree, whose
  only parameter is how scalars are read. `RulesOk`: scalars that are HTTP(S) or OCI URLs are read as the texts they are,
  and a key spelt dependencies is not read as name, version or description. `EncodesByLeaf`: JSON encoding fails only at a
  scalar it has no text for, never at a string. `FirstReadWhole`: the Chart.yaml an artifact is built from, if rewriting
  touches it, has no alias and does not exceed 4 MiB, before or after.
* Limits of the index cache: a positive TTL and a non-negative stale window, as the configuration enforces.

## Where the program falls short of its claim

* A chart whose Chart.yaml declares another version than its index entry makes later answers about that chart depend on
  the cache (`Mislabelled.CacheChangesAnswer`, with a hash free of collisions); other charts are not touched.
* Two versions with the same provenance file share a digest key, and evicting either drops it
  (`CacheInvariants.SharedProvenanceLosesAKey`, exactly when: `Holdings.NewDigestLeadsIff`). No key ever dangles; within
  `ScanLimit` only work is lost, beyond it that blob is no longer answered from the cache.
* An index entry aged exactly the TTL with a shorter stale window can serve nobody, yet is not among the entries
  eviction prefers, so a fresh one may go in its place: exactly when `IndexCaches.SparesServableIff` says
  (`IndexCaches.BoundaryDiscardsFresh` is an instance).
* Versions with an underscore, or that share a tag, break the tag round trip and the concatenation of pages
  (`Tagging.VersionRoundTrips`, `ServedListings.ListingConcatenates`).
* The Link header repeats the page size unescaped, so a size written with a plus sign leads to a refused request
  (`Pagination.LinkLeadsOnIff`; `Pagination.PlusSizeStrands` is an instance).
* A mapped IPv6 prefix of fewer than 96 bits never matches an IPv4 client (`Addresses.ShortMappedPrefixNeverMatches`).
* Map keys that print alike with values that do not marshal alike make the config depend on iteration order
  (`Metadata.ConfigDeterministicIffStable`; `Metadata.PrintedAlike` is an instance, `Decoding.SpeltApart` a document
  for it).
* The comment on the eviction passes speaks of entries past their stale window; the code compares with the wider of the
  two windows, and the model follows the code.

## Model

| member | source | states |
|---|---|---|
| ArtifactCaches.ArtifactCache.Lookup | internal/registry/cache.go:45-56 | A hit moves the entry to the front of the recency order and returns its artifact; a miss changes nothing |
| ArtifactCaches.ArtifactCache.Insert | internal/registry/cache.go:58-90 | A resident version is only refreshed; otherwise the entry is put in front, indexed under its version key and every digest key, and the oldest entries go until the bound holds or one is left |
| ArtifactCaches.ArtifactCache.PushFront | internal/registry/cache.go:81-85 | The insertion half: all keys of the new entry lead to it, the others stay, the size grows by its bytes |
| ArtifactCaches.ArtifactCache.RemoveOldest | internal/registry/cache.go:92-104 | The last entry goes, with every key it owns and its bytes |
| CacheInvariants.VersionKeyInjective | internal/registry/cache.go:42 | Two names free of @, the chart free of /, share a version key only if repo, chart and version all agree |
| CacheInvariants.DigestKeyInjective | internal/registry/cache.go:43 | The same for digest keys |
| CacheInvariants.VersionKeyOnlyMeetsVersionKeys | internal/registry/cache.go:42-43 | No digest key is ever a version key, so a version key of one entry is owned by another only as its version key |
| CacheInvariants.GetKeeps | internal/registry/cache.go:45-56 | A lookup keeps the multi-index invariant and the bound, from any state that has them |
| CacheInvariants.AddKeeps | internal/registry/cache.go:58-104 | So does an insertion, and afterwards the inserted or refreshed entry heads the list and its version key leads to it |
| CacheInvariants.EveryRunWellIndexed | internal/registry/cache.go:45-104 | After every run of lookups and insertions: each key leads to a resident entry owning it, resident version keys are unique and present, size is the sum of resident bytes, and it is at most the bound unless one entry is left |
| CacheInvariants.AddFullyIndexedIff | internal/registry/cache.go:58-104 | After an insertion every key of every resident leads to it exactly if no resident shares a key with the new entry |
| CacheInvariants.SharedProvenanceLosesAKey | internal/registry/cache.go:71-82 | A resident version and an added one with the same provenance digest: afterwards some resident is not reachable under all its keys |
| CacheInvariants.ShrinkForgets | internal/registry/cache.go:92-104 | Eviction deletes every key the evicted entry owned, whoever it then led to |
| Holdings.KeysExactly | internal/registry/cache.go:62-71 | The keys of an entry are that of its version and those of exactly the digests a client can ask for it by: manifest, config, chart and, if there is any, provenance |
| Holdings.NewDigestLeadsIff | internal/registry/cache.go:58-104 | After a version that was not resident is inserted, the key of each digest it can be asked for by leads to it, exactly unless an entry evicted by the same insertion owned that key too |
| Holdings.RoomHolds | internal/registry/cache.go:58-90 | Where nothing has to be evicted, or nothing was cached, all of them lead to it |
| Holdings.SizeIsContents | internal/registry/cache.go:58-104 | After every run the size kept is the number of manifest, config, chart and provenance bytes resident, and within the bound unless a single resident is over it |
| Holdings.BuiltIsHeldIff | internal/registry/resolve.go:100-124 | A lookup by version that had to build leaves the replica holding the artifact under all its digests, wherever the version stands in the index, exactly if no entry evicted for it owned one of them |
| Holdings.HeldManifest | internal/registry/resolve.go:135-139 | A held manifest is answered from the cache, with no exchange and no build |
| Holdings.HeldBlob | internal/registry/handler.go:239-255 | So is every blob of a held artifact, whatever upstream has become |
| Holdings.PullsAreQuiet | internal/registry/resolve.go:135-188 | However often it is pulled, a held artifact costs no exchange and no build, and stays held |
| Holdings.PullAfterBuild | internal/registry/resolve.go:100-188 | After a version was built, any pulls of its parts later, each of its blobs is served with the very bytes and no exchange, at any place in the index, under the condition of BuiltIsHeldIff |
| CacheStack.ResidentsAreLongestFit | internal/registry/cache.go:45-104 | For every trace of accesses with fixed artifact sizes the resident list is the longest prefix of the full recency stack that fits the bound, or its top alone |
| CacheStack.StackByLastUse | internal/registry/cache.go:45-90 | That stack holds what was ever asked for, each once, in the order in which it was last asked for |
| CacheStack.RaisingBoundKeepsHits | internal/registry/cache.go:45-104 | Raising the byte bound never turns a hit of such a trace into a miss |
| CacheRuns.VersionStepVisits | internal/registry/resolve.go:100-129 | A successful lookup of a version of a chart that stands still, and cannot be mistaken, changes the cache as a visit of the recency stack does, a failed one not at all |
| CacheRuns.RunResidents | internal/registry/cache.go:45-104 | After any lookups by version on a replica, its residents are the longest fitting prefix of the stack of those that resolved; only of the charts looked up is anything supposed |
| CacheRuns.RunKeepsHits | internal/registry/cache.go:45-104 | After the same lookups, what hits in a replica hits in one with a larger byte bound, though they meet upstream at different moments |
| CacheRuns.AgreementFits | internal/registry/cache.go:63 | A chart standing still whose entries declare the versions they are listed under is such a chart |
| Metadata.NormalizeStringKeyed | internal/oci/artifact.go:233-256 | Normalising leaves no map keyed by anything but strings, at any depth |
| Metadata.NormalizeFixes | internal/oci/artifact.go:233-256 | A value with only string-keyed maps is left as it is |
| Metadata.NormalizeIdempotent | internal/oci/artifact.go:233-256 | Normalising twice is normalising once |
| Metadata.StableDeterministic | internal/oci/artifact.go:180-186 | If keys that print alike carry values that marshal alike, every iteration order at every level gives the same config |
| Metadata.ConfigDeterministicIffStable | internal/oci/artifact.go:180-256 | The config is the same for every choice of map iteration orders exactly if that condition holds; a counterexample is constructed otherwise |
| Metadata.ConfigMirrorsIffStable | internal/oci/artifact.go:180-256 | A JSON tree says what the decoded YAML does, scalar by scalar, item by item, and for each printed key what every entry of that key holds, exactly if the value meets that condition and the tree is its config |
| Metadata.PrintedAlike | internal/oci/artifact.go:237-241 | A map with the number 1 and the text 1 as keys has two configs, by the order it is visited in |
| Decoding.SpeltApart | internal/oci/artifact.go:215-218 | The document {0x1: "a", "1": "b"} decodes to such a map, one that spells both keys 1 to none |
| Decoding.OwnPairWins | internal/oci/artifact.go:215-218 | A pair of a mapping is decoded as it stands, whatever its merge keys bring in |
| Metadata.DistinctTextsStable | internal/oci/artifact.go:233-256 | The condition holds whenever stringified keys are distinct within each map |
| Oci.Build | internal/oci/artifact.go:101-159 | Every artifact built carries the digests of its own bytes, keeps its inputs, and its manifest describes exactly its config and layers, provenance included if there is any |
| Oci.BlobHasDigest | internal/oci/artifact.go:78-90 | A blob found under a digest has that digest |
| Oci.ReferencesHeld | internal/oci/artifact.go:127-158 | Every descriptor in the manifest resolves in its own artifact, in the stated size |
| Building.ReadMetadata | internal/oci/artifact.go:192-221 | The tar loop, stopping at the first Chart.yaml, computes the metadata function |
| Building.Annotate | internal/oci/artifact.go:163-175 | The conditional map writes compute the annotation function |
| Building.BuildArtifact | internal/oci/artifact.go:101-159 | The step-by-step construction computes Build |
| Building.IsChartYamlIff | internal/oci/artifact.go:225-229 | A Chart.yaml counts exactly if its path is one directory and the file name, after at most one leading ./ |
| Building.BuildPortraysChartYaml | internal/oci/artifact.go:101-221 | Config, name, version and annotations of a built artifact are those of the first Chart.yaml, capped at 4 MiB, and of nothing else in the tarball |
| Building.BuildsExactly | internal/oci/artifact.go:101-221 | A tarball builds exactly if it unpacks, its first Chart.yaml, capped at 4 MiB, decodes to a map with a non-empty name and version, and that metadata marshals; nothing after it in the tarball matters |
| Upstreams.FindVersion | internal/upstream/index.go:45-52 | The result lists that version, and none only if no entry does |
| Upstreams.FindLayerDigest | internal/upstream/index.go:56-64 | The result publishes that digest with or without the algorithm prefix, and none only if no entry does |
| Upstreams.FindVersionFirst | internal/upstream/index.go:45-52 | Of several entries with the version the first counts |
| Upstreams.FindLayerDigestFirst | internal/upstream/index.go:56-64 | Of several entries publishing the digest the first counts |
| Upstreams.PublishesExactly | internal/upstream/index.go:56-64 | Digests are taken for the same exactly if they are equal or one is the other with the algorithm prefix in front |
| Upstreams.FindVersionDistinct | internal/upstream/index.go:45-52 | With distinct versions every listed entry is found under its own version |
| Upstreams.VerifiedDownloadMatchesLayer | internal/upstream/upstream.go:169-185 | A verified download has the very digest its entry publishes, prefixed or not |
| Signing.SignatureBlobHasDigest | internal/sign/sign.go:53-61 | A signature blob found under a digest has that digest |
| Signing.SignatureReferencesHeld | internal/sign/sign.go:110-160 | Every descriptor in a signature manifest resolves in the signature itself, in the stated size |
| Signing.SignatureAttests | internal/sign/sign.go:110-160 | A signature holds the signer's payload for reference and target, in that order, and its manifest names exactly that payload with its signature beside it, under its own digests |
| Resolvers.Derive | internal/registry/resolve.go:274-296 | Whatever download, rewriting and provenance do, a successful build is sealed: digests match bytes and the manifest its blobs |
| Derivations.FetchExactly | internal/upstream/upstream.go:233-261 | A download yields exactly a body answered with 200 within the limit; not found means 404 or 410 and nothing else, too large a 200 over the limit, refused the dial guard |
| Derivations.EntryUrlExactly | internal/upstream/upstream.go:265-283 | It is made from the entry's first URL resolved against the repo, and only over https |
| Derivations.EntriesExactly | internal/registry/resolve.go:67-77 | A chart has entries exactly if the index answers and lists at least one; otherwise it is the index's failure, or an unknown chart |
| Derivations.DeriveExactly | internal/registry/resolve.go:274-296 | A build yields an artifact exactly if it is what Build makes of the download, of the published digest if one is published, rewritten if a host is configured, and of the provenance file, present exactly if it is asked for and answered and absent exactly if not asked for, 404 or 410 |
| Derivations.DerivedArtifact | internal/registry/resolve.go:274-296 | So of any build: with no host its chart is the download; with one the two stand to each other entry by entry as rewriting does, and nothing is left to rewrite |
| Derivations.GoneExactly | internal/upstream/upstream.go:169-185 | A download fails in a way a scan passes over exactly if it is answered 404 or 410, or whole but not of the digest published |
| Derivations.SkippedExactly | internal/registry/resolve.go:258-267 | And so does a build: what is wrong with rewriting, provenance or contents aborts the scan |
| Derivations.UncachedExactly | internal/registry/resolve.go:106-124 | A miss yields an artifact exactly if the chart is listed and the first entry of the version derives it; where no entry has the version, that version is unknown |
| Derivations.PassableExactly | internal/registry/resolve.go:248-268 | For a scan a listed version is passable exactly if its first entry derives something or is gone |
| Resolvers.Resolver.ByVersion | internal/registry/resolve.go:100-129 | With nothing else running: cache, recheck, index, build, add, as the step function of the state |
| Resolvers.Resolver.Flight | internal/registry/resolve.go:106-124 | The body of a flight, with its recheck of the cache |
| Resolvers.Resolver.Scan | internal/registry/resolve.go:248-268 | The loop over the first ScanLimit entries, passing over digest mismatches and missing charts, stopping at any other failure |
| Resolvers.Resolver.ByManifestDigest | internal/registry/resolve.go:135-149 | Cache hit only if the manifest digest itself matches, otherwise a scan |
| Resolvers.Resolver.Blob | internal/registry/resolve.go:154-188 | Cache, then the index-digest fast path, then the scan |
| Resolvers.Resolver.Signature | internal/registry/resolve.go:202-210 | Refused without a signer, otherwise made for a target that resolves |
| Resolvers.Resolver.SignatureBlob | internal/registry/resolve.go:216-241 | A scan for the artifact whose signature holds the blob |
| Resolvers.Resolver.ServeBlob | internal/registry/handler.go:239-255 | A chart blob, or where that is unknown and signing is on, a signature blob |
| Sessions.RunSound | internal/registry/resolve.go:100-241 | A claim every build meets holds of every cached artifact after every run of requests |
| Sessions.VersionHit | internal/registry/resolve.go:100-104 | A hit by version is an artifact of exactly that repo, chart and declared version |
| Sessions.DigestHit | internal/registry/resolve.go:135-139 | A hit by digest is an artifact of that repo and chart |
| Sessions.ContentAddressed | internal/registry/resolve.go:135-241 | With upstream changing arbitrarily between any two exchanges, from every reachable state, any success by manifest digest or blob digest returns bytes with the digest asked for |
| Sessions.VersionSealed | internal/registry/resolve.go:100-129 | A success by version is a sealed artifact, and from the cache one of the version asked for |
| Sessions.SignatureGivenIff | internal/registry/resolve.go:202-210 | A signature is given exactly if signing is on and the same replica would answer a manifest request for its target, and it is then the one for the chart's name and that target |
| Sessions.SignedIsVouched | internal/registry/resolve.go:193-210 | Nothing is signed but the manifest of an artifact that builds of the chart vouch for, in every reachable state, however upstream changes |
| Transparency.UndisturbedSteady | internal/registry/resolve.go:274-296 | A chart whose listed entries and their download URLs are answered alike at every exchange stands still |
| Transparency.DisturbedSteadyOrFailing | internal/upstream/upstream.go:169-261 | If instead those exchanges may fail, the index in any way, a download in any way but 404 and 410, it never derives anything else |
| Transparency.VersionTransparent | internal/registry/resolve.go:100-129 | While one chart stands still, whatever other charts and repos do, a lookup of a version of it that cannot be mistaken equals the cache-free definition in every reachable state |
| Transparency.SuccessTransparent | internal/registry/resolve.go:100-129 | While the chart's upstream keeps failing, such a lookup that succeeds equals it |
| Transparency.AlwaysColdIffUnmistaken | internal/registry/resolve.go:100-129 | Version by version: the answers are the cache-free ones in all reachable states exactly if no version of the chart resolves to an artifact that declares this version where this version does not |
| Transparency.TransparentIffDeclaredVersionsResolve | internal/registry/resolve.go:100-129 | Chart by chart: that is so of all its versions exactly if whatever a version resolves to is also what its declared version resolves to |
| Transparency.AgreementResolves | internal/registry/cache.go:63 | Agreement of index version and Chart.yaml version, for every entry of the one chart that builds, is enough |
| Mislabelled.CacheChangesAnswer | internal/registry/cache.go:63 | A chart listed under another version than its Chart.yaml declares: a lookup of the declared version that fails cold succeeds warm |
| Replicas.ManifestWarmOrCold | internal/registry/resolve.go:135-149 | By manifest digest every replica gives, of a chart that stands still and whose listed versions cannot be mistaken, the cold answer or one from its cache, an artifact some version resolves to |
| Replicas.BlobWarmOrCold | internal/registry/resolve.go:154-188 | The same for blobs |
| Replicas.ManifestColdImpliesWarm | internal/registry/resolve.go:135-149 | Whatever a cold replica answers by manifest digest of such a chart, every reachable one answers with identical bytes |
| Replicas.BlobColdImpliesWarm | internal/registry/resolve.go:154-241 | Whatever a cold replica serves as a blob of such a chart, chart or signature, every reachable one serves with identical bytes |
| Replicas.ColdStart | internal/registry/resolve.go:56-62 | The cold definitions are what a replica that has served nothing gives |
| Pulls.ScanReaches | internal/registry/resolve.go:248-268 | A scan whose earlier candidates build or fail skippably gets to a matching candidate |
| Pulls.ManifestResolves | internal/registry/resolve.go:135-149 | An entry among the first ScanLimit of the index that builds, those before it building or failing skippably, is found by its manifest digest, cold and in every reachable state |
| Pulls.ManifestResolvesIff | internal/registry/resolve.go:135-149 | A manifest digest resolves cold exactly if some entry within ScanLimit builds to it and no entry before that fails otherwise than skippably |
| Pulls.HeldBlobResolvesIff | internal/registry/resolve.go:154-188 | A blob of an artifact within scan reach resolves cold exactly if the index fast path, where it applies, does |
| Pulls.ServedIsYielded | internal/registry/resolve.go:100-149 | Every artifact handed out by any replica in any reachable state, though the chart's upstream keep failing, is what some version of the chart resolves to cold |
| Pulls.ReferencesPullable | internal/registry/resolve.go:154-188 | Pull closure: every descriptor of the manifest of a candidate within scan reach resolves in any reachable state of any replica, with stated digest and size, whatever version that artifact declares |
| Pulls.ScanEndsIff | internal/registry/resolve.go:248-268 | A cold scan ends without an aborting failure exactly if a wanted candidate, or the end, comes before any candidate that fails in a way not skipped |
| Pulls.SignatureBlobResolvesIff | internal/registry/handler.go:239-255 | A blob of the signature of an artifact within scan reach is served cold exactly if the index fast path resolves where it applies, and holds the blob, or all entries within ScanLimit are passable, or one of them that holds the blob comes before any that is not |
| Pulls.SignatureReferencesPullable | internal/registry/resolve.go:216-241 | Under that condition every descriptor of a signature manifest resolves in any reachable state, with stated digest and size |
| Pulls.SignedIsYielded | internal/registry/resolve.go:193-210 | While a chart's upstream answers alike or fails, nothing is signed but the manifest of an artifact that some version of it resolves to |
| Pulls.HonestResolves | internal/registry/resolve.go:165-173 | An index whose digest-publishing versions all resolve meets the fast-path condition for every digest |
| Pulls.FastPathExact | internal/registry/resolve.go:165-173 | Without rewriting and with distinct versions, a cold blob lookup of a published digest is that entry's tarball or its failure, wherever the entry stands |
| Pulls.PublishedLayerServed | internal/registry/resolve.go:154-188 | Hence a published layer whose first publisher builds is served in every reachable state |
| Work.WorkBounded | internal/registry/resolve.go:135-268 | From any state whatever: at most 1 build by version, m by manifest or signature target, m + 1 by blob and 2m + 1 with signing |
| Work.VersionWorkExactly | internal/registry/resolve.go:100-124 | A lookup by version starts one build, of three exchanges in all, exactly if the version is not cached and is listed; it makes one exchange if it is not listed, and none from the cache |
| Work.ScanLimitBoundsWidth | internal/registry/resolve.go:248-256 | m never exceeds ScanLimit |
| FlightInvariants.InvariantAlways | internal/registry/resolve.go:100-129 | Over every interleaving of many clients the cache invariant and the flight bookkeeping hold at every step |
| FlightInvariants.OneLeaderPerKey | internal/registry/resolve.go:106-124 | At most one client at a time leads a flight for a key |
| FlightInvariants.WaitersAreServed | internal/registry/resolve.go:106-129 | Whoever waits on a flight waits on one that is being led for its own key, or already has its outcome |
| FlightAnswers.InterleavedSingleFlight | internal/registry/resolve.go:106-124 | Two clients building the same version at once are the same client |
| FlightAnswers.InterleavedContentAddressed | internal/registry/resolve.go:100-241 | Under interleaving and a changing upstream, every finished digest lookup returns bytes of the digest asked for |
| FlightAnswers.InterleavedTransparent | internal/registry/resolve.go:100-241 | Under any interleaving with requests for any charts, a finished client of a chart that stands still holds the sequential cold answer, or for a digest lookup one from the cache, provided the versions it looks up cannot be mistaken |
| FlightAnswers.InterleavedSuccess | internal/registry/resolve.go:100-129 | While the chart's upstream keeps failing, a client asking for a version that cannot be mistaken gets a failure or the sequential cold answer |
| FlightAnswers.InterleavedBytes | internal/registry/resolve.go:100-241 | Where the cold lookup succeeds, every interleaved client gets its bytes |
| FlightPulls.InterleavedReferencesPullable | internal/registry/resolve.go:154-188 | Pull closure under interleaving: a client asking for a blob that the manifest references gets it in the stated size and digest, whatever other charts do |
| FlightWork.InterleavedWorkBounded | internal/registry/resolve.go:100-268 | Under any interleaving and however upstream changes, no client starts more builds than its request alone may: 1 by version, m by manifest digest, m + 1 by blob and 2m + 1 with signing |
| FlightWork.VersionClientsWork | internal/registry/resolve.go:100-129 | Any number of clients asking for versions start at most one build each |
| FlightRechecks.NothingCachedIsBuilt | internal/registry/resolve.go:106-124 | Of a chart whose entries declare the versions they are listed under, however its upstream fails: in every interleaving what a flight past its recheck is about to build or store is not cached at that moment |
| FlightProgress.MovesBounded | internal/registry/resolve.go:100-268 | In no interleaving does a client take more than 16 steps for each entry a scan may visit, and 28 besides |
| FlightProgress.SomeoneCanMove | internal/registry/resolve.go:100-129 | Whoever has no answer yet can move, or waits for a flight whose leader can |
| FlightProgress.EveryoneCanFinish | internal/registry/resolve.go:100-268 | From wherever an interleaving has got to, steps of its clients lead every one of them to an answer |
| FlightAlone.ClientAlone | internal/registry/resolve.go:100-268 | With no flight in the air, a client stepping alone comes to the answer, the cache, the clock and the builds that the sequential lookup comes to |
| IndexCaches.IndexClient.Index | internal/upstream/upstream.go:110-164 | With nothing else running: the policy refusal; the cached index if younger than the TTL; a fetched one, stored; where the fetch fails, the cached index exactly if stale answers are on, the error is neither not found nor the refusal, and its age is at most the stale window, and otherwise the error |
| IndexCaches.IndexClient.Store | internal/upstream/upstream.go:205-229 | Both eviction loops, in any iteration order, leave the entries the store function keeps plus the new one, within 128 |
| IndexCaches.IndexClient.DropExpired | internal/upstream/upstream.go:215-219 | The first pass drops exactly the entries past both windows |
| IndexCaches.IndexClient.DropToCap | internal/upstream/upstream.go:220-225 | The second pass drops one entry if the cache is still full, and none otherwise |
| IndexCaches.StoreBounded | internal/upstream/upstream.go:205-229 | A cache within 128 entries stays so, whichever entry iteration meets first |
| IndexCaches.StoredExactly | internal/upstream/upstream.go:205-229 | After a store the repo has its new index and time, and every other repo that is not discarded what it had |
| IndexCaches.ServableIffNotExpired | internal/upstream/upstream.go:115-158 | An entry can serve some present or future request exactly if it is not past both windows, nor aged exactly the TTL with a shorter stale window |
| IndexCaches.DiscardsExactly | internal/upstream/upstream.go:205-229 | A store below the cap discards nothing, at the cap the expired entries if there are any, and otherwise exactly one |
| IndexCaches.SparesServableIff | internal/upstream/upstream.go:205-229 | Whatever order iteration takes, a servable entry is discarded only alone and only when all were servable: exactly if the cache is not full with nothing older than the TTL, something exactly that old and something younger, under a shorter stale window |
| IndexCaches.BoundaryDiscardsFresh | internal/upstream/upstream.go:211-225 | An instance where it fails: 128 entries of which one can serve nobody, and the store discards a fresh one |
| IndexRuns.InvariantAlways | internal/upstream/upstream.go:110-229 | The index client's invariant over every interleaving of calls, fetches, stores and a monotone clock |
| IndexRuns.ReturnedIndexJustified | internal/upstream/upstream.go:110-164 | Any index returned for a repo was stored by a successful fetch of that repo, and at some moment of the call was no older than the wider window |
| IndexRuns.ReturnedExactly | internal/upstream/upstream.go:110-164 | Over every interleaving a finished call returns the refusal if its host is not allowed, a cached index younger than the TTL, its own flight's index, or, that flight lost, the index it then read in the cache exactly if stale answers are on, the error is neither not found nor the refusal, and the age is within the window, and otherwise the error |
| IndexRuns.ReadFromCache | internal/upstream/upstream.go:115-159 | What such a result rests on in the cache the cache did hold for that repo, when the call began to look or, for a stale answer, once its flight was lost |
| IndexRuns.CallAlone | internal/upstream/upstream.go:110-164 | A call that meets no other comes, in result and cache, to what the client's method promises |
| IndexRuns.OneFetchPerRepo | internal/upstream/upstream.go:122-134 | No repo is fetched twice at once |
| IndexRuns.AuthoritativeNeverMasked | internal/upstream/upstream.go:143-164 | A call whose own fetch ended in a 404 or a policy refusal returns that error |
| IndexRuns.CacheAlwaysCapped | internal/upstream/upstream.go:205-229 | Never more than 128 entries, at any step |
| IndexRuns.ReturnedIndexGood | internal/upstream/upstream.go:110-164 | Whatever is true of every index that answers a fetch of a repo is true of every index returned for it, fresh, cached or stale, whatever other repos do |
| IndexRuns.IndexTransparent | internal/upstream/upstream.go:110-164 | While one repo stands still, every index returned for it is its own |
| IndexedWorlds.IndexedSuccessTransparent | internal/registry/resolve.go:67-129 | The resolver over the index client: a lookup by version that succeeds equals the cache-free definition, so long as fetched indexes list this chart alike and its downloads are answered alike or fail transiently |
| IndexedWorlds.IndexedSteady | internal/registry/resolve.go:67-77 | While neither the index client nor a download fails, the chart stands still over the index client, so that all the results for such charts apply |
| Rewriting.RewriteRepoUrl | internal/oci/rewrite.go:153-163 | Only HTTP(S) URLs are given another name, and that name is none |
| Rewriting.RepoUrlExactly | internal/oci/rewrite.go:153-163 | A URL gets a name exactly if it is HTTP(S), parses and has a host: oci://, the proxy's host, a slash, and its own host and path less one slash at the end |
| RewriteLaws.RewriteTouchesOnlyRepositories | internal/oci/rewrite.go:103-148 | At every path of every tree the node stays with its kind, decoration, children and value, save that scalar repository values of root dependencies become their rewriting |
| RewriteLaws.DocumentIdempotent | internal/oci/rewrite.go:103-148 | Rewriting a rewritten document changes nothing |
| RewriteLaws.TarballLaw | internal/oci/rewrite.go:28-98 | Entries keep names, headers, order and data but for the Chart.yaml files concerned; the output is the input itself exactly if no dependency needs rewriting |
| RewriteLaws.RewritesExactly | internal/oci/rewrite.go:28-98 | Rewriting succeeds exactly if the tarball reads to its end, every Chart.yaml concerned parses, prints if it changes, and the result, if anything changed, packs |
| RewriteLaws.TarballIdempotent | internal/oci/rewrite.go:28-98 | Rewriting a rewritten tarball returns it byte for byte |
| RewriteLaws.DocumentAlike | internal/oci/rewrite.go:103-148 | A rewritten document differs from the document only in that one URL stands for another, and in no key |
| Decoding.DecodeAlike | internal/oci/rewrite.go:100-138 | Trees that differ only in such URLs decode alike: where one decodes the other does, to a value that differs only in texts |
| Decoding.RootAlike | internal/oci/rewrite.go:100-138 | Field by field: what differs only under dependencies leaves every other named field of the root as it was, merge keys included |
| RewriteBuilds.DocumentDecodesAlike | internal/oci/rewrite.go:100-148 | A rewritten document decodes if the document does, its name, version and description unchanged |
| RewriteBuilds.RewriteKeepsNameAndVersion | internal/oci/rewrite.go:28-98 | If a chart builds, so does what rewriting makes of it, under the same name and version and with the same annotations |
| RewriteInPlace.RewriteDependencyInPlace | internal/oci/rewrite.go:121-137 | The pair loop assigns in place what the tree function says, and reports a change exactly if there is one |
| RewriteInPlace.RewriteListInPlace | internal/oci/rewrite.go:121-137 | The loop over the dependencies |
| RewriteInPlace.RewriteRootInPlace | internal/oci/rewrite.go:114-138 | The pair loop over the root mapping |
| RewriteInPlace.RewriteDocumentInPlace | internal/oci/rewrite.go:108-138 | The whole document: other roots are left alone |
| RewriteInPlace.RewriteChart | internal/oci/rewrite.go:103-148 | Parse, rewrite in place, print only if something changed |
| RewriteInPlace.RewriteTarball | internal/oci/rewrite.go:28-98 | The archive loop: entries collected, the input returned if nothing was rewritten, all packed again otherwise |
| Tagging.VersionRoundTrips | internal/oci/tags.go:15-23 | A version survives the trip through its tag exactly if it has no underscore |
| Tagging.TagRoundTrips | internal/oci/tags.go:15-23 | A valid tag always survives the trip through its version |
| Tagging.VersionToTagInjective | internal/oci/tags.go:15-17 | Underscore-free versions have tags of their own |
| Tagging.SignatureReference | internal/registry/handler.go:222-236 | A reference asks for the signature of a digest exactly if it is that digest's signature tag |
| Tagging.DigestReference | internal/registry/handler.go:177-204 | A digest is taken for that digest, and is no valid tag |
| Tagging.TagPattern | internal/oci/tags.go:9 | Valid tags are those of the pattern [a-zA-Z0-9_][a-zA-Z0-9._-]{0,127} |
| Tagging.DigestPattern | internal/registry/handler.go:27 | Digests are those of sha256:[a-f0-9]{64} |
| Tagging.ListedTagReference | internal/registry/handler.go:177-204 | A listed version's tag is classed as a tag leading back to that version exactly if the version has no underscore and is not signature-shaped |
| Tagging.SemVerReference | internal/oci/tags.go:9-30 | Every SemVer version, with a leading v or without, has a valid tag exactly if it has at most 128 characters, and the tag leads back to it |
| TagLists.Tags | internal/registry/resolve.go:82-95 | The append loop and the sort compute the listing |
| TagLists.TagList | internal/registry/resolve.go:82-95 | The listing is sorted in byte order and holds each valid tag as often as versions have it |
| TagLists.SortedUnique | internal/registry/resolve.go:93 | There is only one such arrangement |
| TagLists.LeqExactly | internal/registry/resolve.go:93 | The order is that of bytes: a prefix comes first, otherwise the first difference decides |
| TagLists.ListedIff | internal/registry/resolve.go:82-95 | A tag is listed exactly if it is valid and some version has it |
| TagLists.ListedTagFound | internal/registry/handler.go:189-191 | Asking for a listed tag of well-behaved versions finds an entry |
| TagLists.ListDistinct | internal/registry/resolve.go:82-95 | The listing repeats no tag exactly if no two versions share one |
| TagLists.UnderscoreFreeDistinct | internal/oci/tags.go:15-17 | Distinct underscore-free versions share none |
| Routes.HandleV2 | internal/registry/handler.go:69-130 | The case split and the segment loop compute the parse |
| Routes.ParsePrint | internal/registry/handler.go:69-130 | Printing any route of valid segments and parsing the path yields the same repo, chart and reference |
| Routes.PrintParse | internal/registry/handler.go:69-130 | Any path that parses to an addressed route is that route's print up to outer slashes, and its name is one the cache keys are unambiguous for |
| Routes.SegmentPattern | internal/registry/handler.go:31 | Valid name segments are those of [a-z0-9]([a-z0-9._:-]*[a-z0-9])? |
| Routes.RefusedExactly | internal/registry/handler.go:69-130 | A path is the version check exactly if nothing is left of it, unsupported exactly if it does not end as a request, and refused for its name exactly if it does but leaves fewer than two segments or an invalid one |
| Routes.SlashesIgnored | internal/registry/handler.go:70 | Any slashes around a path's segments are of no consequence |
| Queries.UnescapeEscape | internal/registry/handler.go:160-161 | Query-unescaping undoes query-escaping on every byte string |
| Queries.EscapeIdentity | internal/registry/handler.go:160-161 | Query-escaping is the identity exactly on unreserved text |
| Queries.ValidTagEscape | internal/registry/handler.go:160-161 | On valid tags it is the identity |
| Queries.FirstValueCounts | internal/registry/handler.go:142-148 | Of several parameters of a name the first that is well escaped counts |
| Queries.PartExactly | internal/registry/handler.go:142-148 | A part gives a name a value exactly if it has no semicolon and reads as the name, an equals sign and the value, escaped, or as the name alone |
| Queries.AtoiShow | internal/registry/handler.go:149 | A number is read back as it is written in decimal, signed or not, exactly within 64 bits |
| Pagination.ServeTags | internal/registry/handler.go:134-167 | The reslicing loop, the limit and the Link header as the page function of listing and query |
| Pagination.AfterKeeps | internal/registry/handler.go:142-146 | Of a sorted listing exactly the tags beyond last remain |
| Pagination.UnpagedExactly | internal/registry/handler.go:134-167 | Without a page size all that is beyond last is shown, in order and without a link; the request is refused exactly if there is one that is no 64-bit number or below zero |
| Pagination.FirstAnswer | internal/registry/handler.go:134-167 | The first request is answered with the first page |
| Pagination.ShownSize | internal/registry/handler.go:148-153 | Every number from 1 up that fits 64 bits, written in decimal, is a page size such a crawl can have |
| Pagination.NextAnswer | internal/registry/handler.go:159-162 | A request for the link's target, parsed as path and query, is answered with the tags beyond the last one shown, at the same page size |
| Pagination.LinkLeadsOnIff | internal/registry/handler.go:159-162 | Of the texts accepted as a page size, the link leads on exactly for those without a plus sign |
| Pagination.PlusSizeStrands | internal/registry/handler.go:159-162 | Asked with n=%2B1 a chart of two tags or more answers a page whose own link is refused |
| Pagination.ZeroPage | internal/registry/handler.go:148-162 | A page size of zero, however spelt, shows nothing and leads nowhere, on every listing and for every last |
| Crawls.PagesAscend | internal/registry/handler.go:134-167 | Pages go up in byte order, however the listing changes between requests: no tag recurs on a later page |
| Crawls.PageSorted | internal/registry/handler.go:134-167 | Within a page tags are in byte order |
| Crawls.CrawlCovers | internal/registry/handler.go:134-167 | A finished crawl has shown every tag that was listed throughout |
| Crawls.CrawlBounded | internal/registry/handler.go:134-167 | With the listing standing still a crawl takes at most ceil(tags / n) pages, or one |
| Crawls.CrawlFinishes | internal/registry/handler.go:134-167 | Following links from the first page ends |
| Crawls.CrawlConcatenates | internal/registry/handler.go:134-167 | The pages put together are the listing exactly if no page boundary falls between equal tags |
| ServedListings.ListingServed | internal/registry/handler.go:134-167 | What the registry serves for a listing URL is what paging through the index's listing answers there |
| ServedListings.ListingConcatenates | internal/registry/resolve.go:82-95 | Of a chart's index entries: for every page size the pages of a finished crawl put together are the listing, exactly if no two versions share a tag |
| ServedListings.ChangingIndexCrawl | internal/registry/handler.go:134-167 | However the index changes between requests, pages go up in byte order and a finished crawl shows every tag listed throughout |
| Networks.OrderIrrelevant | internal/registry/middleware.go:95-114 | Only which hops there are matters, not their order, number or line |
| Addresses.PrefixIsRange | internal/registry/middleware.go:128-132 | A prefix contains exactly the addresses from its network's first to its last, of its own family and without zone |
| Addresses.NormalizedMapped | internal/config/config.go:165-171 | For every mapped prefix of at least 96 bits and every address: the configured IPv4 prefix contains the address exactly if the prefix as written contains its mapped form |
| Addresses.MatchExactly | internal/config/config.go:160-173 | For every prefix and client address, normalising and unmapping match exactly the 128-bit forms, but for zones and for IPv6 prefixes under 96 bits |
| Addresses.ShortMappedPrefixNeverMatches | internal/config/config.go:169-171 | A mapped prefix of 95 bits contains every mapped address and matches no IPv4 client |
| Networks.TrimList | internal/config/config.go:207-215 | In-place filtering over the input's array: the trimmed non-empty entries in front, the rest of the array as it was |
| Networks.TrimmedIdempotent | internal/config/config.go:207-215 | Trimming a trimmed list changes nothing |
| Networks.TrimSpaceCuts | internal/config/config.go:209 | What trimming leaves is a stretch of the text with nothing but space around it |
| Networks.AsciiSpaces | internal/config/config.go:209 | Of ASCII the blank and the characters 9 to 13 are space, and no others |
| Networks.TrimmedConcat | internal/config/config.go:207-215 | A list is trimmed entry by entry, in order |
| Networks.LoadFailsExactly | internal/config/config.go:160-173 | Loading fails exactly with the first text that is no prefix |
| Networks.PortIgnored | internal/registry/middleware.go:118-133 | An address is within the networks with a port or without, exactly if some network contains it unmapped |
| Networks.HopsExactly | internal/registry/middleware.go:106-112 | The hops are what stands between the commas of some header line |
| Networks.Load | internal/config/config.go:160-173 | The prefix loop: every entry parsed and normalised, the first that does not parse fails the load |
| Networks.AddrWithin | internal/registry/middleware.go:118-133 | True exactly if the text, less a port, is an address within some network once unmapped |
| Networks.Chain | internal/registry/middleware.go:102-114 | True exactly if the peer and every comma-separated hop of every header line lie within |
| Networks.PermutingHops | internal/registry/middleware.go:95-114 | Permuting the hops, within and across header lines, changes nothing |
| Networks.AddingLine | internal/registry/middleware.go:95-114 | A header line put anywhere never turns false into true |
| Networks.JoiningLines | internal/registry/middleware.go:106-112 | A non-empty list of header lines means what their joining by commas means |
| Networks.EmptyHeaderFails | internal/registry/middleware.go:106-112 | An empty header fails closed, unlike no header |
| Networks.LoadedWithin | internal/config/config.go:160-173 | Configuration and test together: an address is within the loaded networks exactly if some prefix as written admits its 128-bit form |
| Credentials.LoadAuth | internal/config/config.go:186-205 | The map-filling loop computes the parse; the first bad pair fails it |
| Credentials.PairExactly | internal/config/config.go:191-202 | A pair names a user exactly if it is, trimmed, a name without colons that is not blank, a colon and a non-empty password; blank text says nothing and any other is an error |
| Credentials.AuthExactly | internal/config/config.go:186-205 | Blank text, and nothing else, turns authentication off, and a list fails exactly if some pair does |
| Credentials.AuthRoundTrip | internal/config/config.go:183-205 | Reading back a written list of credentials yields what it means, colons in passwords included, the last of a name winning |
| Credentials.WritableExactly | internal/config/config.go:191-202 | The credentials it takes are exactly those that a written pair is read back as and that hold no comma |
| Serving.Handle | internal/registry/handler.go:69-255 | URL in, content out: routing, reference classes, resolver calls and the paging of listings as one step function |
| Serving.SessionReachable | internal/registry/handler.go:69-255 | No sequence of URLs, well formed or not, leads a replica out of the reachable states |
| Serving.RejectedExactly | internal/registry/handler.go:69-255 | What is refused before the resolver is asked, and its code: a reference that is no tag, digest or signature tag, a blob named by no digest, an invalid name, no request at all; no other manifest or blob path is |
| Serving.SignatureTagServed | internal/registry/handler.go:209-216 | A signature tag's path is answered with content exactly if signing is on and the manifest path of its target would be, whatever was asked before |
| Serving.SignatureTagAttests | internal/registry/handler.go:209-216 | And while the chart's upstream answers alike or fails, what is then attested is an artifact that some version resolves to |
| Serving.ContentServedByDigest | internal/registry/handler.go:177-269 | After any URLs and whatever upstream does, content is served under its own digest, and under the digest the path names if it names one |
| Serving.ListedTagServed | internal/registry/handler.go:177-204 | While its chart stands still, a listed tag of a well-behaved version that cannot be mistaken is answered, whatever was asked before, with the manifest that version builds to |
| Serving.TaggedPullCompletes | internal/registry/handler.go:239-255 | And every blob that manifest references is served by path, in the stated size and under the stated digest |
| Serving.PullByTag | internal/registry/handler.go:177-255 | Pulling by tag, whole: of a chart that stands still and whose listed versions cannot be mistaken, whatever manifest one replica serves for a tag within ScanLimit, earlier candidates building or failing skippably, every blob it references any other replica serves, provided the version the index publishes that blob for resolves; other charts may be mislabelled and may change |

## Left out

- HTTP itself: methods other than GET and HEAD, headers other than Link, the mux's path cleaning, TLS, timeouts, metrics, access logs and the shapes of JSON error bodies.
- Byte formats: gzip, tar, YAML, JSON, base64, Ed25519 and SHA-256 are the pure functions of `Codec`, `Tools` and `Signer`; URL resolution and the parsing of IP texts are parameters too. What host admission answers is a fixed predicate.
- Context cancellation: a leader's cancelled request failing its followers. The internals of singleflight: a flight has a leader, others join it and receive its outcome.
- YAML aliases: the laws of the tree and of the tarball hold with them, an alias being a leaf; what an alias stands for is not modelled, so that name and version are kept is claimed for trees without any. The size field of a tar header, which packing writes anew, is not told apart from the rest of the header.
- Decoding: what it yields for a Chart.yaml is what decoding into a string-keyed map yields. Failures that no caller tells apart are one constructor with a message.
- The media type returned beside a blob's bytes: the handler discards it.
- The rest of the configuration's validation, host globbing and the dial guard: single-branch facts and foreign calls.
- Resolvers.Resolver.Signature: whether the signature verifies under the public key is not modelled, because signing is a parameter.
- Signing.SignatureFor: one expression where the code fills a struct field by field; nothing of it is shared or updated afterwards.
- Addresses.Contains: containment is stated on the numbers the bits spell, because the bit operations behind it belong to Go's library.
- RewriteBuilds.RewriteKeepsNameAndVersion: supposes that rewriting succeeds, since printing and packing are parameters that may refuse, and that the Chart.yaml in question stays under the cap on what is read of it.
- Transparency.VersionTransparent: supposes the chart asked for to stand still, or for successes (Transparency.SuccessTransparent) to answer alike or fail; while it changes, only content addressing is claimed, as the program's own documentation does.
