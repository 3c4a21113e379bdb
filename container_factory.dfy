/** The factory of the dependency-injection container. What matters is which definition
    sources it hands to the container builder and in which order, because a later source
    overrides what an earlier one defines: the INI configuration, `config/global.php`, the
    activated plugins' `config.php` files, the development configuration, the user's
    `config/config.php` and the environment configuration. File-system checks, the
    development switch and the plugin list are inputs (`Installation`). */
module Container {
  import opened Wrappers
  import opened PhpStrings

  /** A definition source given to the builder, tagged with the step of `create()` that
      added it; the builder receives the INI source object or the file path. */
  datatype DefinitionSource =
    | IniConfig
    | GlobalConfig(path: string)
    | PluginConfig(plugin: string, path: string)
    | DevConfig(path: string)
    | UserConfig(path: string)
    | EnvironmentConfig(environment: string, path: string)

  /** The place of each kind of source in the order `create()` adds them. */
  function Layer(s: DefinitionSource): nat
  {
    match s
    case IniConfig => 0
    case GlobalConfig(_) => 1
    case PluginConfig(_, _) => 2
    case DevConfig(_) => 3
    case UserConfig(_) => 4
    case EnvironmentConfig(_, _) => 5
  }

  /** What the factory learns from the installation: PIWIK_USER_PATH,
      Development::isEnabled(), the plugin manager's plugins directory and activated plugins,
      file_exists(), and whether `require $file` of a plugin configuration yields an array. */
  datatype Installation = Installation(
    userPath: string,
    developmentEnabled: bool,
    pluginsDirectory: string,
    activatedPlugins: seq<string>,
    fileExists: string -> bool,
    returnsArray: string -> bool)

  /** The definition cache `create()` installs. */
  datatype DefinitionCache = ArrayCache

  /** What `build()` is given to build from: the sources in order and the two settings. */
  datatype DIContainer = DIContainer(
    sources: seq<DefinitionSource>,
    useAnnotations: Option<bool>,
    cache: Option<DefinitionCache>)

  function GlobalConfigPath(userPath: string): string { userPath + "/config/global.php" }
  function DevConfigPath(userPath: string): string { userPath + "/config/environment/dev.php" }
  function UserConfigPath(userPath: string): string { userPath + "/config/config.php" }

  /** `sprintf('%s/config/environment/%s.php', PIWIK_USER_PATH, $environment)` */
  function EnvironmentConfigPath(userPath: string, environment: string): string
  {
    userPath + "/config/environment/" + environment + ".php"
  }

  function PluginConfigPath(inst: Installation, plugin: string): string
  {
    inst.pluginsDirectory + plugin + "/config.php"
  }

  /** Whether a plugin's configuration is added: its file exists and evaluates to an array. */
  predicate PluginConfigUsable(inst: Installation, plugin: string): (b: bool)
    ensures !inst.fileExists(PluginConfigPath(inst, plugin)) ==> !b
    ensures inst.fileExists(PluginConfigPath(inst, plugin)) ==> (b <==> inst.returnsArray(PluginConfigPath(inst, plugin)))
  {
    inst.fileExists(PluginConfigPath(inst, plugin)) && inst.returnsArray(PluginConfigPath(inst, plugin))
  }

  /** The sources `addPluginConfigs()` adds for `plugins`, in their order. */
  function PluginSources(inst: Installation, plugins: seq<string>): (r: seq<DefinitionSource>)
    ensures |r| <= |plugins|
    ensures forall i | 0 <= i < |r| ::
      r[i].PluginConfig? && r[i].plugin in plugins && r[i].path == PluginConfigPath(inst, r[i].plugin)
      && PluginConfigUsable(inst, r[i].plugin)
  {
    if plugins == [] then []
    else
      var init, last := plugins[..|plugins| - 1], plugins[|plugins| - 1];
      PluginSources(inst, init)
      + if PluginConfigUsable(inst, last) then [PluginConfig(last, PluginConfigPath(inst, last))] else []
  }

  /** `!$this->environment` is false: a non-null environment that is not a falsy string. */
  predicate IsTruthy(environment: Option<string>): (b: bool)
    ensures b ==> environment.Some? && environment.value != ""
    ensures environment.Some? && |environment.value| > 1 ==> b
  {
    environment.Some? && !IsFalsy(environment.value)
  }

  /** The source `addEnvironmentConfig()` adds, if any. */
  function EnvironmentSources(userPath: string, environment: Option<string>): (r: seq<DefinitionSource>)
    ensures |r| <= 1 && (|r| == 1 <==> IsTruthy(environment))
    ensures forall i | 0 <= i < |r| ::
      r[i] == EnvironmentConfig(environment.value, EnvironmentConfigPath(userPath, environment.value))
  {
    if IsTruthy(environment)
    then [EnvironmentConfig(environment.value, EnvironmentConfigPath(userPath, environment.value))]
    else []
  }

  /** The two sources `create()` always starts with. */
  function BaseSources(userPath: string): (r: seq<DefinitionSource>)
    ensures |r| == 2 && r[0] == IniConfig && r[1] == GlobalConfig(GlobalConfigPath(userPath))
  {
    [IniConfig, GlobalConfig(GlobalConfigPath(userPath))]
  }

  /** The development configuration, when development mode is on. */
  function DevSources(inst: Installation): (r: seq<DefinitionSource>)
    ensures |r| <= 1 && (|r| == 1 <==> inst.developmentEnabled)
    ensures forall i | 0 <= i < |r| :: r[i] == DevConfig(DevConfigPath(inst.userPath))
  {
    if inst.developmentEnabled then [DevConfig(DevConfigPath(inst.userPath))] else []
  }

  /** The user's configuration, when its file exists. */
  function UserSources(inst: Installation): (r: seq<DefinitionSource>)
    ensures |r| <= 1 && (|r| == 1 <==> inst.fileExists(UserConfigPath(inst.userPath)))
    ensures forall i | 0 <= i < |r| :: r[i] == UserConfig(UserConfigPath(inst.userPath))
  {
    if inst.fileExists(UserConfigPath(inst.userPath)) then [UserConfig(UserConfigPath(inst.userPath))] else []
  }

  /** Every source `create()` gives the builder, in order. */
  function Sources(inst: Installation, environment: Option<string>): (r: seq<DefinitionSource>)
    ensures 2 <= |r| <= 5 + |inst.activatedPlugins|
  {
    BaseSources(inst.userPath)
    + PluginSources(inst, inst.activatedPlugins)
    + DevSources(inst)
    + UserSources(inst)
    + EnvironmentSources(inst.userPath, environment)
  }

  /** One more plugin adds its source at the end, when its configuration is usable. */
  lemma PluginSourcesStep(inst: Installation, plugins: seq<string>, i: nat)
    requires i < |plugins|
    ensures PluginSources(inst, plugins[..i + 1]) == PluginSources(inst, plugins[..i])
      + if PluginConfigUsable(inst, plugins[i]) then [PluginConfig(plugins[i], PluginConfigPath(inst, plugins[i]))] else []
  {
    assert plugins[..i + 1][..i] == plugins[..i];
  }

  /** Adding plugins one list after another adds their sources one after another, so the
      plugin sources follow the order of the activated plugins. */
  lemma {:induction false} PluginSourcesAppend(inst: Installation, ps: seq<string>, qs: seq<string>)
    ensures PluginSources(inst, ps + qs) == PluginSources(inst, ps) + PluginSources(inst, qs)
  {
    if qs == [] {
      assert ps + qs == ps;
    } else {
      var init := qs[..|qs| - 1];
      assert (ps + qs)[..|ps + qs| - 1] == ps + init;
      assert (ps + qs)[|ps + qs| - 1] == qs[|qs| - 1];
      PluginSourcesAppend(inst, ps, init);
    }
  }

  /** A plugin's configuration is among the plugin sources exactly when the plugin is
      activated and its file exists and evaluates to an array. */
  lemma {:induction false} PluginSourcesExactly(inst: Installation, plugins: seq<string>, p: string)
    ensures PluginConfig(p, PluginConfigPath(inst, p)) in PluginSources(inst, plugins)
      <==> p in plugins && PluginConfigUsable(inst, p)
  {
    if plugins != [] {
      var init, last := plugins[..|plugins| - 1], plugins[|plugins| - 1];
      assert plugins == init + [last];
      PluginSourcesExactly(inst, init, p);
    }
  }

  /** The fixed order: the INI source first, `config/global.php` second, then plugin,
      development, user and environment sources, never out of that order. */
  lemma SourcesInLayerOrder(inst: Installation, environment: Option<string>)
    ensures var r := Sources(inst, environment);
      && |r| >= 2 && r[0] == IniConfig && r[1] == GlobalConfig(GlobalConfigPath(inst.userPath))
      && forall i, j | 0 <= i < j < |r| :: Layer(r[i]) <= Layer(r[j])
  {
    var r := Sources(inst, environment);
    var p := PluginSources(inst, inst.activatedPlugins);
    var dev, user := DevSources(inst), UserSources(inst);
    forall i | 0 <= i < |r|
      ensures Layer(r[i]) == if i == 0 then 0 else if i == 1 then 1
        else if i < 2 + |p| then 2
        else if i < 2 + |p| + |dev| then 3
        else if i < 2 + |p| + |dev| + |user| then 4
        else 5
    {
      if 2 <= i < 2 + |p| {
        assert r[i] == p[i - 2];
      }
    }
  }

  /** The plugin sources sit right after `config/global.php`, and no other plugin source
      appears anywhere. */
  lemma SourcesPluginBlock(inst: Installation, environment: Option<string>)
    ensures var r := Sources(inst, environment);
      var p := PluginSources(inst, inst.activatedPlugins);
      && r[2..2 + |p|] == p
      && forall i | 0 <= i < |r| && r[i].PluginConfig? :: 2 <= i < 2 + |p|
  {
    var r := Sources(inst, environment);
    var p := PluginSources(inst, inst.activatedPlugins);
    var later := LaterSources(inst, environment);
    assert r == BaseSources(inst.userPath) + p + later;
    assert r[2..2 + |p|] == p;
    forall i | 0 <= i < |r|
      ensures r[i].PluginConfig? ==> 2 <= i < 2 + |p|
    {
      if i >= 2 + |p| {
        assert r[i] == later[i - 2 - |p|];
      }
    }
  }

  /** The development, user and environment sources, none of which is a plugin's. */
  function LaterSources(inst: Installation, environment: Option<string>): (r: seq<DefinitionSource>)
    ensures forall i | 0 <= i < |r| :: !r[i].PluginConfig?
  {
    DevSources(inst) + UserSources(inst) + EnvironmentSources(inst.userPath, environment)
  }

  /** The development configuration is present exactly when development mode is on. */
  lemma DevConfigIffDevelopment(inst: Installation, environment: Option<string>)
    ensures (exists i | 0 <= i < |Sources(inst, environment)| :: Sources(inst, environment)[i].DevConfig?)
      <==> inst.developmentEnabled
  {
    var r := Sources(inst, environment);
    var p := PluginSources(inst, inst.activatedPlugins);
    if inst.developmentEnabled {
      assert r[2 + |p|].DevConfig?;
    }
  }

  /** The user configuration is present exactly when `config/config.php` exists. */
  lemma UserConfigIffFileExists(inst: Installation, environment: Option<string>)
    ensures (exists i | 0 <= i < |Sources(inst, environment)| :: Sources(inst, environment)[i].UserConfig?)
      <==> inst.fileExists(UserConfigPath(inst.userPath))
  {
    var r := Sources(inst, environment);
    var p := PluginSources(inst, inst.activatedPlugins);
    var dev := if inst.developmentEnabled then 1 else 0;
    if inst.fileExists(UserConfigPath(inst.userPath)) {
      assert r[2 + |p| + dev].UserConfig?;
    }
  }

  /** The environment configuration is present exactly when the environment is truthy,
      and then it is the last source, named after the environment. */
  lemma EnvironmentConfigLast(inst: Installation, environment: Option<string>)
    ensures var r := Sources(inst, environment);
      && ((exists i | 0 <= i < |r| :: r[i].EnvironmentConfig?) <==> IsTruthy(environment))
      && (IsTruthy(environment) ==>
            r[|r| - 1] == EnvironmentConfig(environment.value,
                            inst.userPath + "/config/environment/" + environment.value + ".php"))
  {
    var r := Sources(inst, environment);
    if IsTruthy(environment) {
      assert r[|r| - 1].EnvironmentConfig?;
    }
  }

  /** PHP-DI's container builder, reduced to what `create()` tells it. */
  class ContainerBuilder {
    var definitions: seq<DefinitionSource>
    var useAnnotations: Option<bool>
    var cache: Option<DefinitionCache>

    /** A builder with no definitions; None stands for the library's own default setting. */
    constructor ()
      ensures definitions == [] && useAnnotations == None && cache == None
    {
      definitions, useAnnotations, cache := [], None, None;
    }

    method UseAnnotations(flag: bool)
      modifies this`useAnnotations
      ensures useAnnotations == Some(flag)
    {
      useAnnotations := Some(flag);
    }

    method SetDefinitionCache(c: DefinitionCache)
      modifies this`cache
      ensures cache == Some(c)
    {
      cache := Some(c);
    }

    /** `addDefinitions()`: the new source goes after all earlier ones. */
    method AddDefinitions(source: DefinitionSource)
      modifies this`definitions
      ensures definitions == old(definitions) + [source]
    {
      definitions := definitions + [source];
    }

    method Build() returns (c: DIContainer)
      ensures c == DIContainer(definitions, useAnnotations, cache)
    {
      c := DIContainer(definitions, useAnnotations, cache);
    }
  }

  class ContainerFactory {
    /** The optional environment configuration to load. */
    var environment: Option<string>

    constructor (environment: Option<string>)
      ensures this.environment == environment
    {
      this.environment := environment;
    }

    /** `create()`: a container built from every source in the fixed order, without
        annotations and with an array cache. */
    method Create(inst: Installation) returns (c: DIContainer)
      ensures c.sources == Sources(inst, environment)
      ensures c.useAnnotations == Some(false) && c.cache == Some(ArrayCache)
    {
      var builder := new ContainerBuilder();
      builder.UseAnnotations(false);
      builder.SetDefinitionCache(ArrayCache);
      builder.AddDefinitions(IniConfig);
      builder.AddDefinitions(GlobalConfig(GlobalConfigPath(inst.userPath)));
      AddPluginConfigs(builder, inst);
      ghost var added := BaseSources(inst.userPath) + PluginSources(inst, inst.activatedPlugins);
      assert builder.definitions == added;
      if inst.developmentEnabled {
        builder.AddDefinitions(DevConfig(DevConfigPath(inst.userPath)));
      }
      added := added + DevSources(inst);
      assert builder.definitions == added;
      if inst.fileExists(UserConfigPath(inst.userPath)) {
        builder.AddDefinitions(UserConfig(UserConfigPath(inst.userPath)));
      }
      added := added + UserSources(inst);
      assert builder.definitions == added;
      AddEnvironmentConfig(builder, inst);
      c := builder.Build();
    }

    /** `addEnvironmentConfig()` */
    method AddEnvironmentConfig(builder: ContainerBuilder, inst: Installation)
      modifies builder`definitions
      ensures builder.definitions == old(builder.definitions) + EnvironmentSources(inst.userPath, environment)
    {
      if !IsTruthy(environment) {
        return;
      }
      var file := EnvironmentConfigPath(inst.userPath, environment.value);
      builder.AddDefinitions(EnvironmentConfig(environment.value, file));
    }

    /** `addPluginConfigs()`: each activated plugin, in order, whose configuration file
        exists and evaluates to an array. */
    method AddPluginConfigs(builder: ContainerBuilder, inst: Installation)
      modifies builder`definitions
      ensures builder.definitions == old(builder.definitions) + PluginSources(inst, inst.activatedPlugins)
    {
      var plugins := inst.activatedPlugins;
      for i := 0 to |plugins|
        invariant builder.definitions == old(builder.definitions) + PluginSources(inst, plugins[..i])
      {
        var plugin := plugins[i];
        PluginSourcesStep(inst, plugins, i);
        var file := PluginConfigPath(inst, plugin);
        if !inst.fileExists(file) {
          continue;
        }
        if inst.returnsArray(file) {
          builder.AddDefinitions(PluginConfig(plugin, file));
        }
      }
      assert plugins[..|plugins|] == plugins;
    }
  }
}
