/**
 * MinecraftGameProvider: finds the game's entrypoint among fixed candidates, records where the
 * game came from and which version it is, and answers the launcher's questions afterwards
 * (launch arguments with or without the access token, whether an error GUI may open, which class
 * to launch, which jars make up the game, the built-in "minecraft" mod).
 *
 * The classloader is a map from class or resource name to the path that provides it. The version
 * lookup of McVersionLookup and the argument post-processing of QuiltLauncherBase are supplied by
 * the caller as functions, and the system property is given as a value.
 */
module GameProvider {
  import opened Wrappers
  import opened Strings
  import opened LaunchArguments
  import opened Sanitizer
  import opened PluginMetadata

  type Path = string

  datatype EnvType = Client | Server

  /** A classloader seen as: name of a class or resource -> the path it is loaded from. */
  type ClassNamespace = map<string, Path>

  datatype EntrypointResult = EntrypointResult(entrypointName: string, entrypointPath: Path)

  datatype McVersion = McVersion(raw: string, normalized: string, classVersion: Option<int>)

  /** The bytecode patches applied before the game starts, in this order. */
  datatype PatchStage = EntrypointPatch | BrandingPatch

  const TRANSFORMER: seq<PatchStage> := [EntrypointPatch, BrandingPatch]

  const GAME_ID := "minecraft"
  const GAME_NAME := "Minecraft"

  const CLIENT_ENTRYPOINTS := ["net.minecraft.client.main.Main", "net.minecraft.client.MinecraftApplet", "com.mojang.minecraft.MinecraftApplet"]
  const SERVER_ENTRYPOINTS := ["net.minecraft.server.Main", "net.minecraft.server.MinecraftServer", "com.mojang.minecraft.server.MinecraftServer"]

  const REALMS_MARKER := "realmsVersion"
  const MODLOADER_MARKER := "ModLoader.class"

  const APPLET_MAIN := "org.quiltmc.loader.impl.entrypoint.applet.AppletMain"

  const NOGUI_FLAGS := ["nogui", "--nogui"]

  /** Offset from a class-file major version to the Java release that introduced it (52 -> 8). */
  const CLASS_VERSION_OFFSET := 44

  function EntrypointCandidates(env: EnvType): seq<string> {
    if env == Client then CLIENT_ENTRYPOINTS else SERVER_ENTRYPOINTS
  }

  /** The client candidates are chosen exactly for the client, and no name is in both lists. */
  lemma CandidatesByEnvironment(env: EnvType)
    ensures EntrypointCandidates(env) == CLIENT_ENTRYPOINTS <==> env == Client
    ensures EntrypointCandidates(env) == SERVER_ENTRYPOINTS <==> env == Server
    ensures forall c :: c in CLIENT_ENTRYPOINTS ==> c !in SERVER_ENTRYPOINTS
  {
  }

  /** GameProviderHelper.getSource: where the loader finds `name`, if anywhere. */
  function GetSource(loader: ClassNamespace, name: string): (r: Option<Path>)
    ensures r.Some? <==> name in loader
    ensures r.Some? ==> r.value == loader[name]
  {
    if name in loader then Some(loader[name]) else None
  }

  /** `candidates[i]` resolves and no earlier candidate does. */
  predicate FirstResolvedAt(loader: ClassNamespace, candidates: seq<string>, i: nat) {
    i < |candidates| && candidates[i] in loader
    && forall j :: 0 <= j < i ==> candidates[j] !in loader
  }

  /** GameProviderHelper.findFirstClass: the first candidate, in list order, that the loader resolves. */
  function FindFirstClass(loader: ClassNamespace, candidates: seq<string>): (r: Option<EntrypointResult>)
    ensures r.None? <==> forall c :: c in candidates ==> c !in loader
    ensures r.Some? ==> r.value.entrypointName in loader && r.value.entrypointPath == loader[r.value.entrypointName]
    ensures r.Some? ==> exists i: nat :: FirstResolvedAt(loader, candidates, i) && candidates[i] == r.value.entrypointName
    decreases |candidates|
  {
    if candidates == [] then None
    else if candidates[0] in loader then
      assert FirstResolvedAt(loader, candidates, 0);
      Some(EntrypointResult(candidates[0], loader[candidates[0]]))
    else
      var r := FindFirstClass(loader, candidates[1..]);
      if r.Some? then
        var i: nat :| FirstResolvedAt(loader, candidates[1..], i) && candidates[1..][i] == r.value.entrypointName;
        assert FirstResolvedAt(loader, candidates, i + 1);
        r
      else
        r
  }

  /** An explicit version argument wins; the system property is the fallback. */
  function VersionOverride(parsed: ArgState, systemGameVersion: Option<string>): Option<string> {
    if GAME_VERSION in parsed.values then Some(parsed.values[GAME_VERSION]) else systemGameVersion
  }

  /**
   * Version precedence on the raw tokens: a leading `--<GAME_VERSION> v` that no later token
   * repeats decides the override, whatever the system property says.
   */
  lemma VersionArgumentWins(v: string, rest: seq<string>, systemGameVersion: Option<string>)
    requires !StartsWith(v, KEY_PREFIX)
    requires forall i :: 0 <= i < |rest| ==> rest[i] != KEY_PREFIX + GAME_VERSION
    ensures VersionOverride(Parse([KEY_PREFIX + GAME_VERSION, v] + rest), systemGameVersion) == Some(v)
  {
    var args := [KEY_PREFIX + GAME_VERSION, v] + rest;
    assert StartsWith(args[0], KEY_PREFIX) && args[0][2..] == GAME_VERSION;
    assert args[1] == v && args[2..] == rest;
    var acc := Empty.Put(GAME_VERSION, v);
    assert Parse(args) == ParseFrom(rest, acc);
    ParseFromKeepsKey(rest, acc, GAME_VERSION);
  }

  /** Without a `--<GAME_VERSION>` token the system property is the override. */
  lemma VersionPropertyFallback(args: seq<string>, systemGameVersion: Option<string>)
    requires forall i :: 0 <= i < |args| ==> args[i] != KEY_PREFIX + GAME_VERSION
    ensures VersionOverride(Parse(args), systemGameVersion) == systemGameVersion
  {
    ParseFromKeepsKey(args, Empty, GAME_VERSION);
  }

  /** The "java" dependency of the built-in mod: `>=` and the class version less 44, if known. */
  function JavaDependency(classVersion: Option<int>): (d: Option<ModDependency>)
    ensures d.Some? <==> classVersion.Some?
    ensures d.Some? ==>
      (d.value.id == "java" && |d.value.versions| == 1
       && StartsWith(d.value.versions[0], ">=") && IsDecimal(d.value.versions[0][2..])
       && ParseInt(d.value.versions[0][2..]) == classVersion.value - CLASS_VERSION_OFFSET)
  {
    match classVersion
    case None => None
    case Some(cv) =>
      var range := ">=" + IntToDecimal(cv - CLASS_VERSION_OFFSET);
      IntToDecimalRoundTrip(cv - CLASS_VERSION_OFFSET);
      assert range[2..] == IntToDecimal(cv - CLASS_VERSION_OFFSET);
      Some(ModDependency("java", [range]))
  }

  /** Class-file version 52 is Java 8. */
  lemma JavaDependencyOfJava8()
    ensures JavaDependency(Some(52)) == Some(ModDependency("java", [">=8"]))
  {
    assert DigitChar(8) == '8';
    assert IntToDecimal(8) == "8";
    assert ">=" + "8" == ">=8";
  }

  datatype BuiltinModMetadata = BuiltinModMetadata(id: string, version: string, name: string, depends: seq<ModDependency>)

  datatype BuiltinMod = BuiltinMod(path: Path, metadata: BuiltinModMetadata)

  /** The launch target: the applet bridge for a client applet entrypoint, else the entrypoint itself. */
  function TargetClass(env: Option<EnvType>, entrypoint: string): string {
    if env == Some(Client) && Contains(entrypoint, "Applet") then APPLET_MAIN else entrypoint
  }

  /** The modern client entrypoint is launched directly. */
  lemma ClientMainIsNotBridged()
    ensures TargetClass(Some(Client), CLIENT_ENTRYPOINTS[0]) == CLIENT_ENTRYPOINTS[0]
  {
    NotContainsWithoutFirstChar(CLIENT_ENTRYPOINTS[0], "Applet");
  }

  /** An entrypoint ending in "Applet" is launched through the applet bridge on the client. */
  lemma AppletSuffixIsBridged(prefix: string)
    ensures TargetClass(Some(Client), prefix + "Applet") == APPLET_MAIN
  {
    var c := prefix + "Applet";
    assert c[|prefix|..|prefix| + 6] == "Applet";
    ContainsAt(c, "Applet", |prefix|);
  }

  /** The modern applet class is launched through the applet bridge. */
  lemma ClientAppletIsBridged()
    ensures TargetClass(Some(Client), CLIENT_ENTRYPOINTS[1]) == APPLET_MAIN
  {
    assert CLIENT_ENTRYPOINTS[1] == "net.minecraft.client.Minecraft" + "Applet";
    AppletSuffixIsBridged("net.minecraft.client.Minecraft");
  }

  /** The classic applet class is launched through the applet bridge. */
  lemma ClassicAppletIsBridged()
    ensures TargetClass(Some(Client), CLIENT_ENTRYPOINTS[2]) == APPLET_MAIN
  {
    assert CLIENT_ENTRYPOINTS[2] == "com.mojang.minecraft.Minecraft" + "Applet";
    AppletSuffixIsBridged("com.mojang.minecraft.Minecraft");
  }

  /**
   * The arguments of a client launch with an access token, after parsing and printing back:
   * the sanitised view keeps only the user name.
   */
  lemma AccessTokenScenario()
    ensures Sanitize(Parse(["--accessToken", "secret", "--username", "bob"]).ToArray()) == ["--username", "bob"]
  {
    var args := ["--accessToken", "secret", "--username", "bob"];
    FirstCharBlocksPrefix("secret", KEY_PREFIX);
    FirstCharBlocksPrefix("bob", KEY_PREFIX);
    assert StartsWith("--accessToken", KEY_PREFIX) && "--accessToken"[2..] == "accessToken";
    assert StartsWith("--username", KEY_PREFIX) && "--username"[2..] == "username";
    assert args[2..][2..] == [];
    assert Canonical(args[2..], {"accessToken"}, false);
    assert Canonical(args, {}, false);
    ParseRoundTrip(args);
    var s := args;
    assert s[1..] == ["secret", "--username", "bob"] && s[2..] == ["--username", "bob"] && s[3..] == ["bob"];
    assert SanitizeFrom(["bob"], 0) == ["bob"];
    assert SanitizeFrom(s[2..], 0) == ["--username", "bob"];
  }

  /**
   * The sanitising loop of getLaunchArguments: walks the list with an iterator, and while the
   * counter is positive removes the current element; "--accessToken" sets the counter to 2.
   */
  method RemoveAccessToken(tokens: seq<string>) returns (list: seq<string>)
    ensures list == Sanitize(tokens)
  {
    list := tokens;
    ghost var k := 0;             // tokens of `tokens` visited so far
    var remove := 0;
    var i := 0;                   // the iterator's cursor in `list`
    while i < |list|
      invariant 0 <= i <= |list| && 0 <= k <= |tokens|
      invariant 0 <= remove <= 1
      invariant list[i..] == tokens[k..]
      invariant list[..i] + SanitizeFrom(tokens[k..], remove) == Sanitize(tokens)
      decreases |list| - i
    {
      var next := list[i];
      assert tokens[k..][0] == next && tokens[k..][1..] == tokens[k + 1..];
      if next == ACCESS_TOKEN {
        remove := 2;
      }
      if remove > 0 {
        list := list[..i] + list[i + 1..];
        remove := remove - 1;
      } else {
        assert list[..i + 1] == list[..i] + [next];
        i := i + 1;
      }
      k := k + 1;
    }
    assert list[..i] == list;
  }

  /**
   * The version override of locateGame: the GAME_VERSION argument, which is removed from the
   * arguments, or else the system property.
   */
  method ResolveVersionOverride(arguments: Arguments, systemGameVersion: Option<string>) returns (version: Option<string>)
    requires arguments.Valid()
    modifies arguments
    ensures arguments.Valid() && arguments.State() == old(arguments.State()).Remove(GAME_VERSION)
    ensures GAME_VERSION in old(arguments.values) ==> version == Some(old(arguments.values)[GAME_VERSION])
    ensures GAME_VERSION !in old(arguments.values) ==> version == systemGameVersion
  {
    version := arguments.Remove(GAME_VERSION);
    if version.None? {
      version := systemGameVersion;
    }
  }

  /** The post-processing leaves the arguments a valid linked map. */
  ghost predicate KeepsValid(process: (ArgState, EnvType) -> ArgState) {
    forall st: ArgState, env: EnvType :: st.Valid() ==> process(st, env).Valid()
  }

  /** QuiltLauncherBase.processArgumentMap, which rewrites the arguments in place as `process` says. */
  method ProcessArgumentMap(arguments: Arguments, env: EnvType, process: (ArgState, EnvType) -> ArgState)
    requires arguments.Valid() && KeepsValid(process)
    modifies arguments
    ensures arguments.Valid()
    ensures arguments.State() == process(old(arguments.State()), env)
  {
    var processed := process(arguments.State(), env);
    arguments.order, arguments.values, arguments.extraArgs := processed.order, processed.values, processed.extras;
  }

  class MinecraftGameProvider {
    var envType: Option<EnvType>
    var entrypoint: Option<string>
    var arguments: Arguments?
    var gameJar: Option<Path>
    var realmsJar: Option<Path>
    var versionData: Option<McVersion>
    var hasModLoader: bool

    /** Environment and arguments are set together; entrypoint, jar and version together. */
    ghost predicate Valid()
      reads this
    {
      (arguments == null <==> envType.None?)
      && (entrypoint.Some? <==> gameJar.Some?)
      && (entrypoint.Some? <==> versionData.Some?)
      && (entrypoint.Some? ==> arguments != null)
    }

    constructor ()
      ensures Valid()
      ensures envType.None? && arguments == null && entrypoint.None? && gameJar.None?
      ensures realmsJar.None? && versionData.None? && !hasModLoader
    {
      envType, entrypoint, arguments := None, None, null;
      gameJar, realmsJar, versionData, hasModLoader := None, None, None, false;
    }

    method LocateGame(env: EnvType, args: seq<string>, loader: ClassNamespace,
                      systemGameVersion: Option<string>,
                      getVersion: (Path, seq<string>, Option<string>) -> McVersion,
                      processArgumentMap: (ArgState, EnvType) -> ArgState)
      returns (found: bool)
      requires Valid() && KeepsValid(processArgumentMap)
      modifies this
      ensures Valid() && fresh(arguments) && arguments.Valid()
      ensures envType == Some(env)
      ensures found <==> FindFirstClass(loader, EntrypointCandidates(env)).Some?
      ensures !found ==> arguments.State() == Parse(args)
      ensures !found ==> entrypoint == old(entrypoint) && gameJar == old(gameJar) && realmsJar == old(realmsJar)
                         && hasModLoader == old(hasModLoader) && versionData == old(versionData)
      ensures found ==>
        var e := FindFirstClass(loader, EntrypointCandidates(env)).value;
        entrypoint == Some(e.entrypointName) && gameJar == Some(e.entrypointPath)
        && realmsJar == GetSource(loader, REALMS_MARKER)
        && hasModLoader == (MODLOADER_MARKER in loader)
        && versionData == Some(getVersion(e.entrypointPath, EntrypointCandidates(env), VersionOverride(Parse(args), systemGameVersion)))
        && arguments.State() == processArgumentMap(Parse(args).Remove(GAME_VERSION), env)
    {
      envType := Some(env);
      var a := new Arguments();
      arguments := a;
      a.Parse(args);

      var entrypointClasses := EntrypointCandidates(env);
      var entrypointResult := FindFirstClass(loader, entrypointClasses);
      if entrypointResult.None? {
        return false;
      }
      RecordGame(env, entrypointResult.value, entrypointClasses, loader, systemGameVersion, getVersion, processArgumentMap);
      return true;
    }

    /** The rest of locateGame once an entrypoint is found: jars, markers, version, arguments. */
    method RecordGame(env: EnvType, result: EntrypointResult, entrypointClasses: seq<string>, loader: ClassNamespace,
                      systemGameVersion: Option<string>,
                      getVersion: (Path, seq<string>, Option<string>) -> McVersion,
                      processArgumentMap: (ArgState, EnvType) -> ArgState)
      requires Valid() && arguments != null && arguments.Valid() && KeepsValid(processArgumentMap)
      modifies this, arguments
      ensures Valid() && arguments == old(arguments) && envType == old(envType) && arguments.Valid()
      ensures entrypoint == Some(result.entrypointName) && gameJar == Some(result.entrypointPath)
      ensures realmsJar == GetSource(loader, REALMS_MARKER)
      ensures hasModLoader == (MODLOADER_MARKER in loader)
      ensures versionData == Some(getVersion(result.entrypointPath, entrypointClasses, VersionOverride(old(arguments.State()), systemGameVersion)))
      ensures arguments.State() == processArgumentMap(old(arguments.State()).Remove(GAME_VERSION), env)
    {
      var version := ResolveVersionOverride(arguments, systemGameVersion);
      ProcessArgumentMap(arguments, env, processArgumentMap);
      var realms := GetSource(loader, REALMS_MARKER);
      var modLoader := GetSource(loader, MODLOADER_MARKER).Some?;
      entrypoint, gameJar, realmsJar, hasModLoader := Some(result.entrypointName), Some(result.entrypointPath), realms, modLoader;
      versionData := Some(getVersion(result.entrypointPath, entrypointClasses, version));
    }

    method GetLaunchArguments(sanitize: bool) returns (r: seq<string>)
      requires Valid()
      ensures arguments == null ==> r == []
      ensures arguments != null && !sanitize ==> r == arguments.ToArray()
      ensures arguments != null && sanitize ==> r == Sanitize(arguments.ToArray())
    {
      if arguments == null {
        return [];
      }
      var list := arguments.ToArray();
      if sanitize {
        list := RemoveAccessToken(list);
      }
      r := list;
    }

    function CanOpenErrorGui(): (r: bool)
      reads this, arguments
      ensures !r <==>
        (arguments != null && envType != Some(Client)
         && exists flag :: flag in NOGUI_FLAGS && flag in arguments.extraArgs)
    {
      if arguments == null || envType == Some(Client) then true
      else
        var extras := arguments.GetExtraArgs();
        !("nogui" in extras) && !("--nogui" in extras)
    }

    /** The class launch loads and whose main it calls. */
    function LaunchTarget(): (target: string)
      reads this
      requires entrypoint.Some?
      ensures envType == Some(Client) && Contains(entrypoint.value, "Applet") ==> target == APPLET_MAIN
      ensures !(envType == Some(Client) && Contains(entrypoint.value, "Applet")) ==> target == entrypoint.value
    {
      TargetClass(envType, entrypoint.value)
    }

    /** The game jar, which is None (Java's null) before LocateGame succeeds, then the Realms jar if any. */
    method GetGameContextJars() returns (list: seq<Option<Path>>)
      ensures |list| >= 1 && list[0] == gameJar
      ensures realmsJar.None? ==> list == [gameJar]
      ensures realmsJar.Some? ==> list == [gameJar, realmsJar]
    {
      list := [];
      list := list + [gameJar];
      if realmsJar.Some? {
        list := list + [realmsJar];
      }
    }

    function GetBuiltinMods(): (mods: seq<BuiltinMod>)
      reads this
      requires gameJar.Some? && versionData.Some?
      ensures |mods| == 1 && mods[0].path == gameJar.value
      ensures mods[0].metadata.id == GAME_ID && mods[0].metadata.name == GAME_NAME
      ensures mods[0].metadata.version == versionData.value.normalized
      ensures versionData.value.classVersion.None? ==> mods[0].metadata.depends == []
      ensures versionData.value.classVersion.Some? ==>
        mods[0].metadata.depends == [JavaDependency(versionData.value.classVersion).value]
    {
      var java := JavaDependency(versionData.value.classVersion);
      var depends := if java.Some? then [java.value] else [];
      [BuiltinMod(gameJar.value, BuiltinModMetadata(GAME_ID, versionData.value.normalized, GAME_NAME, depends))]
    }

    function RequiresUrlClassLoader(): bool
      reads this
    {
      hasModLoader
    }

    /** "." before LocateGame; afterwards the directory the launcher derives from the arguments. */
    function LaunchDirectory(fromArguments: Path): (p: Path)
      reads this
      ensures arguments == null ==> p == "."
      ensures arguments != null ==> p == fromArguments
    {
      if arguments == null then "." else fromArguments
    }

    function GetRawGameVersion(): string
      reads this
      requires versionData.Some?
    {
      versionData.value.raw
    }

    function GetNormalizedGameVersion(): string
      reads this
      requires versionData.Some?
    {
      versionData.value.normalized
    }
  }
}
