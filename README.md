# Quilt loader: Minecraft game provider and mod-metadata builder

This project models two parts of the Quilt mod loader:

- **`MinecraftGameProvider`.** It boots Minecraft:
  - finds the game's entrypoint class among fixed client or server candidates;
  - records which jar supplied it, whether a Realms jar and a legacy ModLoader are present, and which version the game is;
  - consumes the game-version override argument (key `Arguments.GAME_VERSION`);
  - hands the remaining arguments to the launcher.

  Afterwards it answers the launcher's questions:
  - the launch arguments, raw or with the access token redacted;
  - whether an error GUI may open;
  - which class to launch;
  - which jars make up the game;
  - what the built-in `minecraft` mod looks like, including its `java` dependency derived from the class-file version.
- **The `ModMetadataBuilder` plugin API.** A builder for a mod's metadata:
  - fixed identity;
  - optional name and description;
  - license and contributor lists handed out by reference;
  - a "declare empty" mode allowed only for tentative builders;
  - contact info;
  - dependency edges, added directly or through a `ModDependencyBuilder` sub-builder.

## Modules

| file | module | contents |
|---|---|---|
| `wrappers.dfy` | `Wrappers` | `Option` and `Result` |
| `strings.dfy` | `Strings` | `String.startsWith` and `String.contains`; decimal rendering with ASCII digits, the way `String.format("%d")` renders in such a locale, and its inverse |
| `arguments.dfy` | `LaunchArguments` | the `Arguments` object the provider uses |
| `sanitizer.dfy` | `Sanitizer` | the access-token redaction rule of `getLaunchArguments(true)` |
| `minecraft_game_provider.dfy` | `GameProvider` | the provider class and the functions it is specified by |
| `mod_metadata_builder.dfy` | `PluginMetadata` | the builder classes |

`Arguments` is a class whose `parse` and `remove` update fields in place. Its abstract value is the datatype `ArgState`:
- a key/value map;
- its keys in first-insertion order;
- the list of extra tokens.

The redaction loop is stated twice. `SanitizeFrom` follows the source's counter. `KeepMask` is an index-wise reference: a token goes when it is `--accessToken` or follows one. `SanitizeIsMasked` proves the two agree.

The environment is modelled as follows:
- **Classloader.** A map from class or resource name to the path of the jar that provides it (`ClassNamespace`).
- **Callers' functions.** `McVersionLookup.getVersion` and `QuiltLauncherBase.processArgumentMap` are function parameters of `LocateGame`. `QuiltLauncherBase.getLaunchDirectory` is a value parameter of `LaunchDirectory`.
- **System property.** The `GAME_VERSION` system property is an `Option<string>` parameter.

`ModMetadataBuilder.java` is an interface. The behaviour modelled is what its signatures and documentation comments promise:
- fluent mutators return the receiver;
- `licenses()` and `contributors()` are the modifiable lists themselves;
- `noLicenses`/`noContributors` throw `IllegalStateException` unless the builder came from `ofTentative`;
- `ModDependencyBuilder.build` is `addDepends(toDependency())`, returning the parent.

In the model, the identity fields and the construction mode are `const`. Each mutator's `modifies` frame names only what it changes.

## Model

| member | source | states |
|---|---|---|
| Strings.NatToDecimal | src/main/java/org/quiltmc/loader/impl/game/minecraft/MinecraftGameProvider.java:87 | `%d` of a natural number is a nonempty digit string with no leading zero |
| Strings.IntToDecimalRoundTrip | src/main/java/org/quiltmc/loader/impl/game/minecraft/MinecraftGameProvider.java:87 | the `%d` rendering of any integer is a well-formed decimal that reads back as that integer |
| Strings.ParseNatToDecimal | src/main/java/org/quiltmc/loader/impl/game/minecraft/MinecraftGameProvider.java:87 | helper of `IntToDecimalRoundTrip`: reading the digits of a natural number gives it back |
| Strings.ContainsAt | src/main/java/org/quiltmc/loader/impl/game/minecraft/MinecraftGameProvider.java:217 | helper of `AppletSuffixIsBridged`: a string holding `t` at some position contains `t` |
| Strings.NotContainsWithoutFirstChar | src/main/java/org/quiltmc/loader/impl/game/minecraft/MinecraftGameProvider.java:217 | helper of `ClientMainIsNotBridged`: a string without the first character of `t` does not contain `t` |
| Strings.StartsWith | src/main/java/org/quiltmc/loader/impl/game/minecraft/MinecraftGameProvider.java:137 | `String.startsWith`: the string begins with the prefix; the `--` test of the argument parser |
| Strings.Contains | src/main/java/org/quiltmc/loader/impl/game/minecraft/MinecraftGameProvider.java:217 | `String.contains`: `t` occurs as a contiguous block; characterised by `ContainsAt` and `NotContainsWithoutFirstChar` |
| Strings.IntToDecimal | src/main/java/org/quiltmc/loader/impl/game/minecraft/MinecraftGameProvider.java:87 | `%d` of an int: a `-` before the digits of a negative value; specified by `IntToDecimalRoundTrip` |
| Sanitizer.SanitizeFrom | src/main/java/org/quiltmc/loader/impl/game/minecraft/MinecraftGameProvider.java:174-190 | the sanitising loop over the tokens left, with its counter: `--accessToken` sets it to 2 and a positive counter removes the token; specified by `SanitizeFromIsMasked`, `SanitizeFromHasNoKey` and `SanitizeFromIsSubsequence` |
| Sanitizer.Sanitize | src/main/java/org/quiltmc/loader/impl/game/minecraft/MinecraftGameProvider.java:174-190 | the loop started with the counter at 0; specified by `SanitizeIsMasked`, `SanitizeHasNoKey`, `SanitizeIsSubsequence` and `SanitizeIdempotent` |
| Sanitizer.KeepMask | src/main/java/org/quiltmc/loader/impl/game/minecraft/MinecraftGameProvider.java:181-188 | the independent index-wise rule, one flag per token: a token is dropped when it is `--accessToken` or follows one |
| Sanitizer.SanitizeFromIsMasked | src/main/java/org/quiltmc/loader/impl/game/minecraft/MinecraftGameProvider.java:174-190 | from either counter value the loop can carry between tokens (0 or 1), its output equals the index-wise selection of tokens neither equal to nor right after `--accessToken` |
| Sanitizer.SanitizeIsMasked | src/main/java/org/quiltmc/loader/impl/game/minecraft/MinecraftGameProvider.java:174-190 | the sanitised list is exactly the input without each `--accessToken` and the one token after it, in the original order |
| Sanitizer.SanitizeHasNoKey | src/main/java/org/quiltmc/loader/impl/game/minecraft/MinecraftGameProvider.java:181-188 | no `--accessToken` survives sanitising |
| Sanitizer.SanitizeFromHasNoKey | src/main/java/org/quiltmc/loader/impl/game/minecraft/MinecraftGameProvider.java:181-188 | whatever the counter on entry, no `--accessToken` survives |
| Sanitizer.SanitizeWithoutKey | src/main/java/org/quiltmc/loader/impl/game/minecraft/MinecraftGameProvider.java:174-190 | a list without `--accessToken` passes through unchanged |
| Sanitizer.SanitizeIdempotent | src/main/java/org/quiltmc/loader/impl/game/minecraft/MinecraftGameProvider.java:174-190 | sanitising twice gives what sanitising once gives |
| Sanitizer.SanitizeFromIsSubsequence | src/main/java/org/quiltmc/loader/impl/game/minecraft/MinecraftGameProvider.java:176-189 | the loop only removes tokens: its output is a subsequence of its input |
| Sanitizer.SanitizeIsSubsequence | src/main/java/org/quiltmc/loader/impl/game/minecraft/MinecraftGameProvider.java:176-189 | the sanitised list is a subsequence of the raw list |
| Sanitizer.RepeatedKeyRestartsWindow | src/main/java/org/quiltmc/loader/impl/game/minecraft/MinecraftGameProvider.java:181-183 | a second `--accessToken` resets the counter to 2, so `[K, K, x, y]` leaves `[y]` |
| Sanitizer.TrailingKeyRemovedAlone | src/main/java/org/quiltmc/loader/impl/game/minecraft/MinecraftGameProvider.java:178-188 | a final `--accessToken` with nothing after it is removed on its own and nothing else changes |
| Sanitizer.SelectSnocDropped | src/main/java/org/quiltmc/loader/impl/game/minecraft/MinecraftGameProvider.java:178-188 | helper of `TrailingKeyRemovedAlone`: appending a dropped element does not change the selection |
| LaunchArguments.WithoutMembers | src/main/java/org/quiltmc/loader/impl/game/minecraft/MinecraftGameProvider.java:160 | helper of `RemoveValid`: removing a key from the key order leaves exactly the other keys |
| LaunchArguments.WithoutDistinct | src/main/java/org/quiltmc/loader/impl/game/minecraft/MinecraftGameProvider.java:160 | helper of `RemoveValid`: removing a key keeps the key order free of duplicates |
| LaunchArguments.ArgState.Put | src/main/java/org/quiltmc/loader/impl/game/minecraft/MinecraftGameProvider.java:137 | `LinkedHashMap.put`: a new key goes last and an existing key keeps its place; invariant kept by `PutValid` |
| LaunchArguments.ArgState.Remove | src/main/java/org/quiltmc/loader/impl/game/minecraft/MinecraftGameProvider.java:160 | `remove` on the abstract value; characterised by `RemoveForgetsKey`, `RemoveIdempotent` and `RemoveValid` |
| LaunchArguments.ArgState.ToArray | src/main/java/org/quiltmc/loader/impl/game/minecraft/MinecraftGameProvider.java:172 | `toArray`: `--key`, `value` per key in key order, then the extras; shape in `ToArrayShape`, inverse of parse in `ParseRoundTrip` |
| LaunchArguments.FlattenLength | src/main/java/org/quiltmc/loader/impl/game/minecraft/MinecraftGameProvider.java:172 | helper of `ToArrayShape`: two printed tokens per key |
| LaunchArguments.ToArrayShape | src/main/java/org/quiltmc/loader/impl/game/minecraft/MinecraftGameProvider.java:172 | toArray prints two tokens per key and then the extras, last and in their own order |
| LaunchArguments.ParseFrom | src/main/java/org/quiltmc/loader/impl/game/minecraft/MinecraftGameProvider.java:137 | the parse function over the tokens left, from a given state; the in-place `Arguments.Parse` is proved equal to it |
| LaunchArguments.Parse | src/main/java/org/quiltmc/loader/impl/game/minecraft/MinecraftGameProvider.java:137 | parse from the empty state; specified by `ParseFromValid`, `ParseRoundTrip` and `ParseFromKeepsKey` |
| LaunchArguments.ParseFromKeepsKey | src/main/java/org/quiltmc/loader/impl/game/minecraft/MinecraftGameProvider.java:137 | a key that no token spells as `--key` is present after parsing exactly when it was before, with the same value |
| LaunchArguments.PutValid | src/main/java/org/quiltmc/loader/impl/game/minecraft/MinecraftGameProvider.java:137 | storing a pair keeps the keys distinct and in step with the map |
| LaunchArguments.RemoveValid | src/main/java/org/quiltmc/loader/impl/game/minecraft/MinecraftGameProvider.java:160 | removing a key keeps the keys distinct and in step with the map |
| LaunchArguments.RemoveForgetsKey | src/main/java/org/quiltmc/loader/impl/game/minecraft/MinecraftGameProvider.java:160 | after removal the key is gone; every other key keeps its value, the key order drops only that key, and the extras are untouched |
| LaunchArguments.RemoveIdempotent | src/main/java/org/quiltmc/loader/impl/game/minecraft/MinecraftGameProvider.java:160 | removing the same key twice is removing it once |
| LaunchArguments.ParseFromValid | src/main/java/org/quiltmc/loader/impl/game/minecraft/MinecraftGameProvider.java:137 | parsing keeps the keys distinct and in step with the map |
| LaunchArguments.ParseFromAt | src/main/java/org/quiltmc/loader/impl/game/minecraft/MinecraftGameProvider.java:137 | helper of `Arguments.Parse`: one step of the parse function read at position `i` (a pair, a key with an empty value, or an extra) |
| LaunchArguments.FlattenSnoc | src/main/java/org/quiltmc/loader/impl/game/minecraft/MinecraftGameProvider.java:172 | helper of `CanonicalPairStep`: a new last key prints as `--key`, `value` after the existing pairs |
| LaunchArguments.CanonicalExtraStep | src/main/java/org/quiltmc/loader/impl/game/minecraft/MinecraftGameProvider.java:137 | helper of `ParseFromCanonical`: a leading extra token is appended to the extras and printed back as it was |
| LaunchArguments.CanonicalPairStep | src/main/java/org/quiltmc/loader/impl/game/minecraft/MinecraftGameProvider.java:137 | helper of `ParseFromCanonical`: a leading `--key value` with a fresh key becomes the last pair and prints back as it was |
| LaunchArguments.ParseFromCanonical | src/main/java/org/quiltmc/loader/impl/game/minecraft/MinecraftGameProvider.java:137 | parsing tokens in toArray's own shape onto a state appends exactly those tokens to the state's printed form |
| LaunchArguments.ParseRoundTrip | src/main/java/org/quiltmc/loader/impl/game/minecraft/MinecraftGameProvider.java:137 | toArray (line 172) gives back exactly the tokens parse read, when they are pairs with fresh keys followed by extras |
| LaunchArguments.Arguments.constructor | src/main/java/org/quiltmc/loader/impl/game/minecraft/MinecraftGameProvider.java:136 | a new Arguments holds no pairs and no extras |
| LaunchArguments.Arguments.Parse | src/main/java/org/quiltmc/loader/impl/game/minecraft/MinecraftGameProvider.java:137 | the in-place parse loop leaves the fields equal to the parse function applied to the old state, and keeps them valid |
| LaunchArguments.Arguments.Remove | src/main/java/org/quiltmc/loader/impl/game/minecraft/MinecraftGameProvider.java:160 | returns the value stored under the key, or None when there is none; the new state is the old one with that key removed |
| LaunchArguments.Arguments.ToArray | src/main/java/org/quiltmc/loader/impl/game/minecraft/MinecraftGameProvider.java:172 | the printed form of the current state (`ArgState.ToArray`) |
| LaunchArguments.Arguments.GetExtraArgs | src/main/java/org/quiltmc/loader/impl/game/minecraft/MinecraftGameProvider.java:209 | the extra tokens, in the order parse met them |
| GameProvider.EntrypointCandidates | src/main/java/org/quiltmc/loader/impl/game/minecraft/MinecraftGameProvider.java:141-145 | the client candidate list for the client, the server list otherwise; specified by `CandidatesByEnvironment` |
| GameProvider.CandidatesByEnvironment | src/main/java/org/quiltmc/loader/impl/game/minecraft/MinecraftGameProvider.java:141-145 | the client list is used exactly for the client, the server list exactly for the server, and the two lists share no name |
| GameProvider.GetSource | src/main/java/org/quiltmc/loader/impl/game/minecraft/MinecraftGameProvider.java:157-158 | a name has a source exactly when the loader resolves it, and the source is where the loader finds it |
| GameProvider.FindFirstClass | src/main/java/org/quiltmc/loader/impl/game/minecraft/MinecraftGameProvider.java:147 | None exactly when no candidate resolves; otherwise the result names a candidate that resolves, with its path, and no earlier candidate resolves |
| GameProvider.VersionOverride | src/main/java/org/quiltmc/loader/impl/game/minecraft/MinecraftGameProvider.java:160-161 | the parsed override value when the key is present, else the system property; `ResolveVersionOverride` is proved to compute it |
| GameProvider.VersionArgumentWins | src/main/java/org/quiltmc/loader/impl/game/minecraft/MinecraftGameProvider.java:160-161 | on the raw tokens: a leading `--<GAME_VERSION> v` (v not a key) that no later token repeats is the override, whatever the system property |
| GameProvider.VersionPropertyFallback | src/main/java/org/quiltmc/loader/impl/game/minecraft/MinecraftGameProvider.java:160-161 | when no token is `--<GAME_VERSION>`, the system property is the override |
| GameProvider.JavaDependency | src/main/java/org/quiltmc/loader/impl/game/minecraft/MinecraftGameProvider.java:85-88 | a dependency exists exactly when the class version is known; it is on `java`, with a single range `>=` followed by a decimal that reads back as the class version less 44 |
| GameProvider.JavaDependencyOfJava8 | src/main/java/org/quiltmc/loader/impl/game/minecraft/MinecraftGameProvider.java:86-87 | class-file version 52 gives the range `>=8` |
| GameProvider.TargetClass | src/main/java/org/quiltmc/loader/impl/game/minecraft/MinecraftGameProvider.java:217-218 | the applet bridge for a client entrypoint containing `Applet`, else the entrypoint; pinned down by the three `...Bridged` lemmas |
| GameProvider.ClientMainIsNotBridged | src/main/java/org/quiltmc/loader/impl/game/minecraft/MinecraftGameProvider.java:215-219 | the modern client entrypoint is launched as itself |
| GameProvider.AppletSuffixIsBridged | src/main/java/org/quiltmc/loader/impl/game/minecraft/MinecraftGameProvider.java:217-218 | on the client any entrypoint ending in `Applet` is replaced by the applet bridge |
| GameProvider.ClientAppletIsBridged | src/main/java/org/quiltmc/loader/impl/game/minecraft/MinecraftGameProvider.java:217-218 | `net.minecraft.client.MinecraftApplet` launches through the applet bridge |
| GameProvider.ClassicAppletIsBridged | src/main/java/org/quiltmc/loader/impl/game/minecraft/MinecraftGameProvider.java:217-218 | `com.mojang.minecraft.MinecraftApplet` launches through the applet bridge |
| GameProvider.AccessTokenScenario | src/main/java/org/quiltmc/loader/impl/game/minecraft/MinecraftGameProvider.java:172-190 | `--accessToken secret --username bob`, parsed, printed back and sanitised, is `--username bob` |
| GameProvider.RemoveAccessToken | src/main/java/org/quiltmc/loader/impl/game/minecraft/MinecraftGameProvider.java:174-190 | the iterator loop that removes in place computes exactly the sanitised list |
| GameProvider.ResolveVersionOverride | src/main/java/org/quiltmc/loader/impl/game/minecraft/MinecraftGameProvider.java:160-161 | the `GAME_VERSION` argument is removed; the result is its value if it was present, else the system property |
| GameProvider.ProcessArgumentMap | src/main/java/org/quiltmc/loader/impl/game/minecraft/MinecraftGameProvider.java:164 | the arguments become what the launcher's post-processing makes of them for this environment; a post-processing that keeps the map valid leaves it valid |
| GameProvider.MinecraftGameProvider.constructor | src/main/java/org/quiltmc/loader/impl/game/minecraft/MinecraftGameProvider.java:40-45 | a new provider has no environment, arguments, entrypoint, jars or version, and no ModLoader |
| GameProvider.MinecraftGameProvider.LocateGame | src/main/java/org/quiltmc/loader/impl/game/minecraft/MinecraftGameProvider.java:134-167 | sets the environment and fresh parsed arguments, kept a valid linked map; returns true exactly when a candidate for the environment resolves. On false, nothing else changes and the arguments are the parse of the input. On true: the first resolving candidate and its jar are recorded; the Realms jar is recorded if present; the ModLoader flag is set exactly when its marker resolves; the version is looked up with the override, which is then removed from the arguments; the arguments are post-processed |
| GameProvider.MinecraftGameProvider.RecordGame | src/main/java/org/quiltmc/loader/impl/game/minecraft/MinecraftGameProvider.java:155-166 | success path of locateGame: records entrypoint, jar, Realms jar and ModLoader flag, looks up the version with the removed override, and post-processes the rest |
| GameProvider.MinecraftGameProvider.GetLaunchArguments | src/main/java/org/quiltmc/loader/impl/game/minecraft/MinecraftGameProvider.java:170-196 | empty before locateGame; otherwise the printed arguments, sanitised when asked |
| GameProvider.MinecraftGameProvider.CanOpenErrorGui | src/main/java/org/quiltmc/loader/impl/game/minecraft/MinecraftGameProvider.java:204-211 | false exactly when arguments exist, the environment is not the client, and `nogui` or `--nogui` is among the extra arguments |
| GameProvider.MinecraftGameProvider.LaunchTarget | src/main/java/org/quiltmc/loader/impl/game/minecraft/MinecraftGameProvider.java:214-219 | the applet bridge when on the client and the entrypoint contains `Applet`, else the entrypoint itself |
| GameProvider.MinecraftGameProvider.GetGameContextJars | src/main/java/org/quiltmc/loader/impl/game/minecraft/MinecraftGameProvider.java:122-131 | the game jar first (None, Java's null, before locateGame succeeds), followed by the Realms jar only when there is one |
| GameProvider.MinecraftGameProvider.GetBuiltinMods | src/main/java/org/quiltmc/loader/impl/game/minecraft/MinecraftGameProvider.java:74-91 | a single mod from the game jar with id `minecraft`, name `Minecraft` and the normalised version; it depends on the java dependency exactly when the class version is known |
| GameProvider.MinecraftGameProvider.LaunchDirectory | src/main/java/org/quiltmc/loader/impl/game/minecraft/MinecraftGameProvider.java:102-109 | `.` before locateGame, afterwards the directory the launcher derives from the arguments |
| GameProvider.MinecraftGameProvider.RequiresUrlClassLoader | src/main/java/org/quiltmc/loader/impl/game/minecraft/MinecraftGameProvider.java:117-119 | the ModLoader flag, which `LocateGame` sets exactly when `ModLoader.class` resolves |
| GameProvider.MinecraftGameProvider.GetRawGameVersion | src/main/java/org/quiltmc/loader/impl/game/minecraft/MinecraftGameProvider.java:62-66 | the raw version recorded by `LocateGame` |
| GameProvider.MinecraftGameProvider.GetNormalizedGameVersion | src/main/java/org/quiltmc/loader/impl/game/minecraft/MinecraftGameProvider.java:68-71 | the normalised version recorded by `LocateGame`, also the version of the built-in mod |
| PluginMetadata.ModList.Add | src/main/java/org/quiltmc/loader/api/plugin/ModMetadataBuilder.java:44-45 | adding to the modifiable list appends one element |
| PluginMetadata.ModList.AddAll | src/main/java/org/quiltmc/loader/api/plugin/ModMetadataBuilder.java:44-45 | adding a collection appends it in order |
| PluginMetadata.ModList.Clear | src/main/java/org/quiltmc/loader/api/plugin/ModMetadataBuilder.java:51-55 | helper of `NoLicenses`/`NoContributors`: empties the list |
| PluginMetadata.ModMetadataBuilder.Of | src/main/java/org/quiltmc/loader/api/plugin/ModMetadataBuilder.java:16-18 | a strict builder with the given identity and every optional field unset |
| PluginMetadata.ModMetadataBuilder.OfTentative | src/main/java/org/quiltmc/loader/api/plugin/ModMetadataBuilder.java:20-22 | a tentative builder with the given identity and every optional field unset |
| PluginMetadata.ModMetadataBuilder.SetName | src/main/java/org/quiltmc/loader/api/plugin/ModMetadataBuilder.java:36-38 | sets the name, changes nothing else, returns the receiver |
| PluginMetadata.ModMetadataBuilder.SetDescription | src/main/java/org/quiltmc/loader/api/plugin/ModMetadataBuilder.java:40-42 | sets the description, changes nothing else, returns the receiver |
| PluginMetadata.ModMetadataBuilder.Licenses | src/main/java/org/quiltmc/loader/api/plugin/ModMetadataBuilder.java:44-45 | the builder's own license list, not a copy |
| PluginMetadata.ModMetadataBuilder.AddLicense | src/main/java/org/quiltmc/loader/api/plugin/ModMetadataBuilder.java:47 | appends one license and returns the receiver |
| PluginMetadata.ModMetadataBuilder.AddLicenses | src/main/java/org/quiltmc/loader/api/plugin/ModMetadataBuilder.java:49 | appends the licenses in order and returns the receiver |
| PluginMetadata.ModMetadataBuilder.NoLicenses | src/main/java/org/quiltmc/loader/api/plugin/ModMetadataBuilder.java:51-55 | IllegalState, changing nothing, on a strict builder; on a tentative one the license field becomes complete and empty |
| PluginMetadata.ModMetadataBuilder.Contributors | src/main/java/org/quiltmc/loader/api/plugin/ModMetadataBuilder.java:57-58 | the builder's own contributor list, not a copy |
| PluginMetadata.ModMetadataBuilder.AddContributor | src/main/java/org/quiltmc/loader/api/plugin/ModMetadataBuilder.java:60 | appends one contributor and returns the receiver |
| PluginMetadata.ModMetadataBuilder.AddContributors | src/main/java/org/quiltmc/loader/api/plugin/ModMetadataBuilder.java:62 | appends the contributors in order and returns the receiver |
| PluginMetadata.ModMetadataBuilder.NoContributors | src/main/java/org/quiltmc/loader/api/plugin/ModMetadataBuilder.java:64-68 | IllegalState, changing nothing, on a strict builder; on a tentative one the contributor field becomes complete and empty |
| PluginMetadata.ModMetadataBuilder.AddContactInfo | src/main/java/org/quiltmc/loader/api/plugin/ModMetadataBuilder.java:72 | inserts one pair, replacing an earlier value under the same key, and keeps every other pair |
| PluginMetadata.ModMetadataBuilder.PutContactInfo | src/main/java/org/quiltmc/loader/api/plugin/ModMetadataBuilder.java:74 | merges a map in: the keys are the union, values from the new map win, and other pairs are kept |
| PluginMetadata.ModMetadataBuilder.AddDepends | src/main/java/org/quiltmc/loader/api/plugin/ModMetadataBuilder.java:78 | appends one dependency edge and returns the receiver |
| PluginMetadata.ModMetadataBuilder.StartDepends | src/main/java/org/quiltmc/loader/api/plugin/ModMetadataBuilder.java:80 | a new sub-builder whose parent is this builder |
| PluginMetadata.ModMetadataBuilder.SetIsQuiltDeps | src/main/java/org/quiltmc/loader/api/plugin/ModMetadataBuilder.java:84-85 | records the flag and changes nothing else |
| PluginMetadata.ModDependencyBuilder.ToDependency | src/main/java/org/quiltmc/loader/api/plugin/ModMetadataBuilder.java:89 | the edge the sub-builder assembled; `Build` hands exactly this to `AddDepends` |
| PluginMetadata.ModDependencyBuilder.constructor | src/main/java/org/quiltmc/loader/api/plugin/ModMetadataBuilder.java:87-89 | a sub-builder tied to its parent and to the edge it assembles |
| PluginMetadata.ModDependencyBuilder.Build | src/main/java/org/quiltmc/loader/api/plugin/ModMetadataBuilder.java:91-93 | appends toDependency() to the parent's dependencies and returns that parent |
| PluginMetadata.StrictModeRejectsNoLicenses | src/main/java/org/quiltmc/loader/api/plugin/ModMetadataBuilder.java:51-55 | `of(...)` followed by `noLicenses()` fails with IllegalState |
| PluginMetadata.TentativeModeAllowsNoLicenses | src/main/java/org/quiltmc/loader/api/plugin/ModMetadataBuilder.java:51-55 | `ofTentative(...)` followed by `noLicenses()` succeeds, leaving the license field complete and empty |
| PluginMetadata.DependencyBuilderMatchesAddDepends | src/main/java/org/quiltmc/loader/api/plugin/ModMetadataBuilder.java:91-93 | `startDepends()` then `build()` on a new builder leaves the same single-edge list as `addDepends` |

## Left out

- **`Arguments` (`org.quiltmc.loader.impl.util.Arguments`).** This file is not part of this model. Its behaviour follows the launcher convention the provider relies on:
  - `parse` reads `--key value` pairs;
  - a key directly followed by another `--` token gets the value `""`;
  - a lone last `--key` is an extra;
  - keys keep first-insertion order;
  - `toArray` prints the pairs in key order and then the extras;
  - the value of `Arguments.GAME_VERSION` is not shown. The source uses that constant name for the argument (line 160) and for the system property (line 161), so the model takes the property's name, `loader.gameVersion`. No proof depends on the string.
- **`LaunchArguments.ArgState.ToArray` and `LaunchArguments.Flatten`** are total: a key without a value prints as `""`. Valid states never have such a key, and every state the provider reaches is valid: `LocateGame` requires the post-processing to keep the map valid (`KeepsValid`).
- **Version lookup.** `McVersionLookup.getVersion` is a function parameter; its inspection of the jar is not modelled.
- **`GameProviderHelper`.** `findFirstClass` and `getSource` are modelled on the classloader-as-map view. Real class loading and URL-to-path conversion are not.
- **`QuiltLauncherBase`.** `processArgumentMap` and `getLaunchDirectory` are parameters, because their code is not part of this model.
- **`System.getProperty(SystemProperties.GAME_VERSION)`** is a parameter.
- **`Log.init` (line 153)** only configures logging and is left out.
- **`launch` (lines 221-227)** loads the target class and invokes its `main` reflectively. Only the choice of target class is modelled (`LaunchTarget`). The reflective call and the wrapping of its exceptions are left out.
- **`getBuiltinMods` (lines 76-80)** converts the jar path to a URL and may throw `MalformedURLException`. The model keeps the path.
- **`BuiltinModMetadata.Builder`** is represented by the record it builds.
- **`GameProvider.JavaDependency`** renders digits in ASCII. Java's `String.format` uses the default format locale, so in a locale with other digits (Arabic-Indic, say) the program prints a different string than the model's `>=8`.
- **`McVersion.classVersion`** is an unbounded integer, where the source computes `getAsInt() - 44` in 32-bit `int` arithmetic. Class-file major versions are 16-bit, so the subtraction cannot wrap.
- **Trivial getters.** `getGameId`, `getGameName`, `getEntrypointTransformer`, `getGameJar`, `getEntrypoint` and `isObfuscated` return a constant or a field. They are the constants `GAME_ID`, `GAME_NAME` and `TRANSFORMER` and the class fields. `isObfuscated` is always true.
- **`GameTransformer`.** The patches themselves are out of scope; `TRANSFORMER` records only their order.
- **`GameProvider.MinecraftGameProvider.LocateGame`:**
  - Its success path is split into `RecordGame`, `ResolveVersionOverride` and `ProcessArgumentMap`.
  - `RecordGame` resolves the version before it assigns the jar fields. The two touch different objects, so the final state is the same as in the source's order.
  - A null `envType` is not modelled: `EnvType` has no null. Java would treat it as not the client and try the server candidates.
- **`GameProvider.RemoveAccessToken`** models the list iterator's in-place `remove` on a sequence value.
- **Null receivers.** `GameProvider.MinecraftGameProvider.GetBuiltinMods`, `GetRawGameVersion` and `GetNormalizedGameVersion` dereference `gameJar` or `versionData`. Java throws a `NullPointerException` there before `locateGame` succeeds; the model requires the fields to be set.
- **`GameProvider.MinecraftGameProvider.LaunchTarget`** requires an entrypoint. Before a successful `locateGame` the entrypoint is null:
  - If the environment is not the client (or is null, before any `locateGame`), the `&&` at line 217 short-circuits and the target is null. The failure comes later, in `loadClass` inside the `try`, and is wrapped in a `RuntimeException`.
  - After a failed client `locateGame`, `targetClass.contains` at line 217 throws a `NullPointerException`.
  - Neither failure is modelled.
- **`GameProvider.MinecraftGameProvider.GetGameContextJars`** returns `Option<Path>` elements. `ArrayList.add(null)` does not throw, so before `locateGame` succeeds the list is `[None]`, Java's `[null]`.
- **`ModMetadataBuilder.build()` and `FullModMetadata`.** The frozen record and the draft's state after `build` are not part of this model: the interface does not show them.
- **The `LoaderValue.LObject` root** passed to `of`/`ofTentative` is not modelled.
- **`PluginMetadata.ModMetadataBuilder.StartDepends`** takes the edge the sub-builder will produce as a parameter. The sub-builder interface shows no mutators through which it would be assembled.
- **`PluginMetadata.ModMetadataBuilder.PutContactInfo`** and **`AddContactInfo`** model the contact map as a map. The iteration order of the Java map is not modelled.
- **Tri-state fields.** The unset / set / explicitly-empty state of the license and contributor fields is a list plus a completion flag.
- **`PluginMetadata.ModMetadataBuilder.NoLicenses` and `NoContributors`** empty a list that was already filled. The interface says only that the field is then complete and empty; clearing is the model's reading of that.
- **`id()`, `group()`, `version()`, `name()`, `description()` and `contactInfo()`** read fields; they are the `const` and `var` fields of the class.
- **`Text.java`** belongs to the GUI layer and is not used by the modelled code.
