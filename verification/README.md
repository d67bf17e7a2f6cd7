# PartsUnlimited start-up decisions in Dafny

PartsUnlimited is a sample ASP.NET Core shop with an order-processing job runner beside it.
Almost all of its start-up code is framework wiring. This project models the three pieces
of that code that decide something:

1. **Storage connection string** (website). The value at `ConnectionStrings:DefaultConnectionString`
   goes to the Entity Framework `PartsUnlimitedContext` as it is, with no trimming or checks.
   It is replaced by `""` (the in-memory database) when it is null, empty or white space
   (`string.IsNullOrWhiteSpace`), and also whenever the site runs on Mono.
2. **Recommendation engine** (website, `SetupRecommendationService`). The settings object comes
   from the `Keys:AzureMLFrequentlyBoughtTogether` section. If its `AccountKey` or `ModelName`
   is null or empty (`string.IsNullOrEmpty`, so white space counts as present), only the
   `EmptyRecommendationsEngine` is registered. Otherwise the AzureML engine is registered,
   together with its authenticated HTTP client and the settings object itself.
3. **Job-runner gate** (`ProcessOrder` `Program.Main`). The Azure Web Jobs connection string
   is checked first and the database connection string second. The first one that is blank
   stops the run: one diagnostic line is printed and the exit code is 10. If both are present
   the exit code is 0 and nothing is printed.

The two website decisions test blankness differently, and the model keeps that difference. A white-space-only AzureML key or model name counts as present. A white-space-only connection string counts as missing (`Website.WhiteSpaceAsymmetry`).

The configuration is an immutable snapshot, `map<string, string>`, where a missing key reads
as null. Keys are hierarchical paths joined by `:` (`ConfigurationPath.Combine`). A
configuration section is a view of the root at a path prefix. The service container is the
ordered list of registrations made so far. Resolving a service gives its last registration,
because that is the one the ASP.NET Core container hands out.

Modules:

- `Wrappers`: `Option`.
- `Strings`: `char.IsWhiteSpace`, `IsNullOrEmpty`, and `IsNullOrWhiteSpace` both as a
  predicate and as the runtime's scan loop.
- `Configuration`: lookups, `Combine`, and sections. `Split` is `Combine`'s inverse. It exists to prove that key paths are unambiguous. The program never splits a key path.
- `Website`: the storage choice, registrations and `SetupRecommendationService`.
- `ProcessOrder`: the gate, written as an ordered list of requirements.

## Model

| member | source | states |
|---|---|---|
| Strings.ScanNullOrWhiteSpace | src/PartsUnlimitedWebsite/Program.cs:27 | the scan returns true exactly when the value is null or every character is `char.IsWhiteSpace`; when it returns false, some character is not white space |
| Strings.NullOrEmptyRefinesNullOrWhiteSpace | src/PartsUnlimitedWebsite/Program.cs:164 | null-or-empty implies null-or-white-space; a value that is not blank is a non-empty string; the two tests disagree exactly on non-empty strings made only of white space, and a single space is one of them |
| Configuration.CombineSplit | src/PartsUnlimitedWebsite/Program.cs:26 | joining the segments of any key path with `:` gives the path back |
| Configuration.SplitCombine | src/PartsUnlimitedWebsite/Program.cs:26 | a non-empty list of segments without `:` is recovered exactly by splitting its joined path |
| Configuration.SectionGetIsFlatLookup | src/PartsUnlimitedWebsite/Program.cs:161 | reading `key` in the section at a combined path is the same as reading the flat path with `key` appended |
| Website.DefaultConnectionKeyPath | src/PartsUnlimitedWebsite/Program.cs:26 | the storage key is `ConnectionStrings:DefaultConnectionString` |
| Website.DefaultConnectionKeySegments | src/PartsUnlimitedWebsite/Program.cs:26 | the storage key splits back into exactly `ConnectionStrings` and `DefaultConnectionString` |
| Website.AzureMLSectionPathLiteral | src/PartsUnlimitedWebsite/Program.cs:161 | the recommendation settings section is `Keys:AzureMLFrequentlyBoughtTogether` |
| Website.AzureMLKeyPaths | src/PartsUnlimitedWebsite/Program.cs:161-164 | the account key and model name are read from `Keys:AzureMLFrequentlyBoughtTogether:AccountKey` and `…:ModelName` |
| Website.SelectStorage | src/PartsUnlimitedWebsite/Program.cs:25-32 | the storage policy chooses SQL Server exactly when not on Mono and the configured connection string is not null, empty or white space, and then it carries the configured value |
| Website.ResolveSqlConnectionString | src/PartsUnlimitedWebsite/Program.cs:25-35 | the context string is `""` when the configured string is null, empty or white space, whatever the Mono flag; it is `""` on Mono even when a string is configured; otherwise it is the configured value exactly and non-empty; in every case it is the string of the storage policy's choice |
| Website.SqlServerStringIsNeverBlank | src/PartsUnlimitedWebsite/Program.cs:27-35 | a SQL Server choice never carries a blank string, so the in-memory database is chosen exactly when the context string is `""` |
| Website.StorageReadsOnlyItsKey | src/PartsUnlimitedWebsite/Program.cs:26 | two configurations that agree on the storage key give the same storage choice |
| Website.ReadsFlatKeys | src/PartsUnlimitedWebsite/Program.cs:161 | the settings object (`ReadAzureMLConfig`) read through the section holds exactly the values at the two flat AzureML keys |
| Website.RecommendationRegistrations | src/PartsUnlimitedWebsite/Program.cs:164-173 | exactly one engine is registered; only recommendation services are registered; the empty engine is used exactly when a key is null or empty (`MissingAzureMLKeys`), and then no HTTP client or settings object is registered; otherwise the scoped AzureML engine, the singleton HTTP client and the singleton settings object are used |
| Website.SetupRecommendationService | src/PartsUnlimitedWebsite/Program.cs:159-174 | the earlier registrations are kept and the registrations for the settings at the flat keys are appended |
| Website.RecommendationEngineChoice | src/PartsUnlimitedWebsite/Program.cs:159-174 | after setup the number of engines grows by one; the empty engine is resolved exactly when the account key or model name is null or empty, and then the client and settings resolve as before; otherwise the AzureML engine, its client, and settings carrying exactly the two configured values are resolved |
| Website.RecommendationsReadOnlyTheirKeys | src/PartsUnlimitedWebsite/Program.cs:161-164 | two configurations that agree on the account key and the model name give the same registrations |
| Website.WhiteSpaceAsymmetry | src/PartsUnlimitedWebsite/Program.cs:27-164 | for every non-empty white-space-only value at all three keys, storage falls back to the in-memory database while the AzureML engine is chosen |
| Website.StorageRegistrations | src/PartsUnlimitedWebsite/Program.cs:35-36 | the context is registered with the given connection string and the context interface forwards to it, and no engine is registered |
| Website.StorageSurvivesRecommendations | src/PartsUnlimitedWebsite/Program.cs:159-174 | setting up recommendations changes the resolution of no other service |
| Website.ConfigureServices | src/PartsUnlimitedWebsite/Program.cs:25-62 | the container resolves the context to the storage policy's connection string, holds exactly one recommendation engine, and resolves it to the empty engine exactly when a key is missing |
| ProcessOrder.CheckRequired | src/PartsUnlimited.WebJobs.ProcessOrder/Program.cs:20-30 | the exit code is 0 or 10 and at most one line is printed; the code is 0 exactly when every required string is present, and then nothing is printed; a code of 10 prints the message of the first missing string, and every earlier one is present |
| ProcessOrder.WebJobsMissing | src/PartsUnlimited.WebJobs.ProcessOrder/Program.cs:20-24 | a missing Web Jobs string gives code 10 with only the Web Jobs message, even when the database string is missing too |
| ProcessOrder.DatabaseMissing | src/PartsUnlimited.WebJobs.ProcessOrder/Program.cs:26-30 | a present Web Jobs string with a missing database string gives code 10 with only the database message |
| ProcessOrder.ProcessOrderMain | src/PartsUnlimited.WebJobs.ProcessOrder/Program.cs:13-38 | the exit code is 0 or 10; it is 0 exactly when both strings are present, and then nothing is printed; on 10 the output is exactly one of the two messages |
| ProcessOrder.ReadsOnlyTheTwoKeys | src/PartsUnlimited.WebJobs.ProcessOrder/Program.cs:18-19 | two configurations that agree on the two connection-string keys give the same result |

## Left out

- Loading the JSON configuration files (`src/PartsUnlimitedWebsite/Program.cs:14-19`, `src/PartsUnlimited.WebJobs.ProcessOrder/Program.cs:15-17`). The loaded configuration is an input map. A missing or unreadable file is not modelled.
- Case-insensitive key matching in .NET configuration. Keys are compared exactly.
- The Mono check `Type.GetType("Mono.Runtime")` is reflection. It is the boolean parameter `runningOnMono`.
- `Console.WriteLine` is not performed. The printed lines are returned in `JobResult.out`.
- The other service registrations: MVC, Identity, authorization policy, caches, queries, telemetry, Application Insights and session. They are framework wiring for services the model does not track. `ConfigureServices` therefore lists only the storage and recommendation registrations, in their source order.
- The middleware pipeline, routes, exception-handler switch, CDN static configuration and sample-data seeding (`src/PartsUnlimitedWebsite/Program.cs:80-157`). This is framework configuration and asynchronous database I/O.
- What `PartsUnlimitedContext` does with an empty connection string. That class is not part of this model. `StorageChoice` records that `""` stands for the in-memory database.
- `AzureMLFrequentlyBoughtTogetherConfig` is not part of this model. It is assumed to read the section's `AccountKey` and `ModelName` entries.
- Container semantics: a service resolves to its last registration. Lifetimes are recorded but do not affect resolution.
- `char.IsWhiteSpace` uses the character set documented for .NET: Unicode categories Zs, Zl and Zp, plus U+0009 to U+000D and U+0085. Other Unicode versions are not modelled.
- Idempotence of resolution is not stated separately. Every decision is a pure function of the snapshot and the flag, so calling it twice on the same input gives the same value.
