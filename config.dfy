/**
 * Configuration resolution of `InitCmdContainer`: the four recognised option
 * keys are merged over a fixed default table.  Go reaches the fields of
 * `CmdConfig` by reflection on the key name; here `FieldByName` and
 * `SetField` are an explicit per-key table.
 */
module Config {

  /** The process-wide settings, one field per recognised option key. */
  datatype CmdConfig = CmdConfig(
    commandsDir: string,
    dockerEndpoint: string,
    containerRepository: string,
    containerTag: string)

  /** The default table `cmdConfigDefaultOpts`. */
  const DefaultOpts: map<string, string> := map[
    "CommandsDir" := "/root/commands",
    "DockerEndpoint" := "unix:///var/run/docker.sock",
    "ContainerRepository" := "freighterio/cmd",
    "ContainerTag" := "latest"
  ]

  /** The zero value `CmdConfig{}` that `InitCmdContainer` starts from. */
  const EmptyConfig: CmdConfig := CmdConfig("", "", "", "")

  /** The field of `c` whose Go name is `key`. */
  function FieldByName(c: CmdConfig, key: string): (field: string)
    requires key in DefaultOpts
  {
    if key == "CommandsDir" then c.commandsDir
    else if key == "DockerEndpoint" then c.dockerEndpoint
    else if key == "ContainerRepository" then c.containerRepository
    else c.containerTag
  }

  /** `c` with the field named `key` set to `value` (reflection's `SetString`). */
  function SetField(c: CmdConfig, key: string, value: string): (r: CmdConfig)
    requires key in DefaultOpts
    ensures FieldByName(r, key) == value
    ensures forall k :: k in DefaultOpts && k != key ==> FieldByName(r, k) == FieldByName(c, k)
  {
    if key == "CommandsDir" then c.(commandsDir := value)
    else if key == "DockerEndpoint" then c.(dockerEndpoint := value)
    else if key == "ContainerRepository" then c.(containerRepository := value)
    else c.(containerTag := value)
  }

  /** The value the option `key` takes: the supplied one if present, else the default. */
  function Lookup(opts: map<string, string>, key: string): (value: string)
    requires key in DefaultOpts
  {
    if key in opts then opts[key] else DefaultOpts[key]
  }

  /** The configuration `InitCmdContainer` produces for `opts`, field by field. */
  function Resolve(opts: map<string, string>): (config: CmdConfig)
  {
    CmdConfig(
      Lookup(opts, "CommandsDir"),
      Lookup(opts, "DockerEndpoint"),
      Lookup(opts, "ContainerRepository"),
      Lookup(opts, "ContainerTag"))
  }

  /** Two configurations that agree on every named field are equal. */
  lemma FieldsDetermineConfig(c: CmdConfig, d: CmdConfig)
    requires forall k :: k in DefaultOpts ==> FieldByName(c, k) == FieldByName(d, k)
    ensures c == d
  {
    assert FieldByName(c, "CommandsDir") == FieldByName(d, "CommandsDir");
    assert FieldByName(c, "DockerEndpoint") == FieldByName(d, "DockerEndpoint");
    assert FieldByName(c, "ContainerRepository") == FieldByName(d, "ContainerRepository");
    assert FieldByName(c, "ContainerTag") == FieldByName(d, "ContainerTag");
  }

  /**
   * The merge loop of `InitCmdContainer`: starting from the zero config it
   * visits the keys of the default table in an unspecified order (Go's map
   * iteration order) and sets each field from `opts` or from the default.
   */
  method InitCmdContainer(opts: map<string, string>) returns (config: CmdConfig)
    ensures forall key :: key in DefaultOpts ==>
      FieldByName(config, key) == (if key in opts then opts[key] else DefaultOpts[key])
    ensures config == Resolve(opts)
  {
    config := EmptyConfig;
    var pending := DefaultOpts.Keys;
    while pending != {}
      invariant pending <= DefaultOpts.Keys
      invariant forall k :: k in DefaultOpts && k !in pending ==> FieldByName(config, k) == Lookup(opts, k)
      decreases pending
    {
      var key :| key in pending;
      var dflt := DefaultOpts[key];
      if key in opts {
        config := SetField(config, key, opts[key]);
      } else {
        config := SetField(config, key, dflt);
      }
      pending := pending - {key};
    }
    FieldsDetermineConfig(config, Resolve(opts));
  }

  /** Every recognised field is the supplied value when present and the default otherwise. */
  lemma ResolveField(opts: map<string, string>, key: string)
    requires key in DefaultOpts
    ensures key in opts ==> FieldByName(Resolve(opts), key) == opts[key]
    ensures key !in opts ==> FieldByName(Resolve(opts), key) == DefaultOpts[key]
  {
  }

  /** Keys outside the default table have no effect on the resolved configuration. */
  lemma ResolveIgnoresUnknownKeys(opts: map<string, string>, other: map<string, string>)
    requires forall k :: k in DefaultOpts ==> (k in opts <==> k in other)
    requires forall k :: k in DefaultOpts && k in opts ==> opts[k] == other[k]
    ensures Resolve(opts) == Resolve(other)
  {
  }

  /** Absent `ContainerTag` and `CommandsDir` resolve to `latest` and `/root/commands`. */
  lemma ResolveDefaults(opts: map<string, string>)
    ensures "ContainerTag" !in opts ==> Resolve(opts).containerTag == "latest"
    ensures "CommandsDir" !in opts ==> Resolve(opts).commandsDir == "/root/commands"
    ensures Resolve(map[]) == CmdConfig("/root/commands", "unix:///var/run/docker.sock", "freighterio/cmd", "latest")
  {
  }
}
