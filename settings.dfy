/**
 * The exported factory of lib/index.js: it copies the default settings of
 * lib/default_settings.js, merges the user's configuration into the copy and
 * builds a client from it.
 *
 * The settings are objects, as in the source: a Settings object points to two
 * ServerAddress objects, and merging writes into them in place. `Merged` is
 * the value the merge is meant to produce; both factories below are proved
 * to produce it, and differ in which objects they write to.
 */
module Settings {
  import opened Wrappers
  import TunnelClient

  /** The value of a server address object. */
  datatype Address = Address(host: string, port: int)

  /** The value of a settings object. `poolSize` is absent from the defaults. */
  datatype SettingsValue = SettingsValue(
    localServer: Address,
    remoteServer: Address,
    poolSize: Option<int>,
    uuidFile: string,
    debug: bool,
    rewriteHost: Option<string>,
    cli: bool)

  /** The keys a user's server object supplies. */
  datatype ServerPatch = ServerPatch(host: Option<string>, port: Option<int>)

  /**
   * A user configuration: each field is present or absent. `others` stands for
   * every other top-level key, which the merge ignores.
   */
  datatype UserConfig = UserConfig(
    localServer: Option<ServerPatch>,
    remoteServer: Option<ServerPatch>,
    poolSize: Option<int>,
    uuidFile: Option<string>,
    debug: Option<bool>,
    rewriteHost: Option<Option<string>>,
    cli: Option<bool>,
    others: map<string, string>)

  /** The defaults of lib/default_settings.js; the uuid file path depends on $HOME. */
  function DefaultValue(uuidFile: string): SettingsValue {
    SettingsValue(Address("localhost", 3001), Address("proxy.lodoss.org", 5000), None, uuidFile, false, None, false)
  }

  function Override<T>(old_: T, supplied: Option<T>): T {
    if supplied.Some? then supplied.value else old_
  }

  /** `_.extend(address, patch)`: supplied fields replace, the others stay. */
  function Patch(a: Address, p: ServerPatch): Address {
    Address(Override(a.host, p.host), Override(a.port, p.port))
  }

  /** What the factory means to build from defaults `d` and an optional configuration. */
  function Merged(d: SettingsValue, config: Option<UserConfig>): (r: SettingsValue)
    ensures config.None? ==> r == d
    ensures config.Some? && config.value.localServer.None? ==> r.localServer == d.localServer
    ensures config.Some? && config.value.remoteServer.None? ==> r.remoteServer == d.remoteServer
    ensures config.Some? && config.value.poolSize.Some? ==> r.poolSize == config.value.poolSize
    ensures config.Some? && config.value.rewriteHost.Some? ==> r.rewriteHost == config.value.rewriteHost.value
    ensures config.Some? && config.value.uuidFile.Some? ==> r.uuidFile == config.value.uuidFile.value
  {
    if config.None? then d
    else
      var c := config.value;
      SettingsValue(
        if c.localServer.Some? then Patch(d.localServer, c.localServer.value) else d.localServer,
        if c.remoteServer.Some? then Patch(d.remoteServer, c.remoteServer.value) else d.remoteServer,
        if c.poolSize.Some? then c.poolSize else d.poolSize,
        Override(d.uuidFile, c.uuidFile),
        Override(d.debug, c.debug),
        Override(d.rewriteHost, c.rewriteHost),
        Override(d.cli, c.cli))
  }

  /** Without a configuration the settings equal the defaults. */
  lemma MergedWithoutConfig(d: SettingsValue)
    ensures Merged(d, None) == d
  {
  }

  /**
   * Server addresses merge field by field: a supplied host or port wins, an
   * absent one keeps its default, and an absent server object keeps both.
   */
  lemma MergedServers(d: SettingsValue, c: UserConfig)
    ensures var r := Merged(d, Some(c));
      && r.localServer.host == (if c.localServer.Some? && c.localServer.value.host.Some? then c.localServer.value.host.value else d.localServer.host)
      && r.localServer.port == (if c.localServer.Some? && c.localServer.value.port.Some? then c.localServer.value.port.value else d.localServer.port)
      && r.remoteServer.host == (if c.remoteServer.Some? && c.remoteServer.value.host.Some? then c.remoteServer.value.host.value else d.remoteServer.host)
      && r.remoteServer.port == (if c.remoteServer.Some? && c.remoteServer.value.port.Some? then c.remoteServer.value.port.value else d.remoteServer.port)
  {
  }

  /** Keys other than the servers and the five picked ones have no effect. */
  lemma MergedIgnoresOtherKeys(d: SettingsValue, c: UserConfig, others: map<string, string>)
    ensures Merged(d, Some(c)) == Merged(d, Some(c.(others := others)))
  {
  }

  /** Merging the same configuration twice changes nothing more. */
  lemma MergedIdempotent(d: SettingsValue, c: Option<UserConfig>)
    ensures Merged(Merged(d, c), c) == Merged(d, c)
  {
  }

  /** A settings field the configuration does not supply keeps its default. */
  lemma MergedKeepsUnsupplied(d: SettingsValue, c: UserConfig)
    ensures var r := Merged(d, Some(c));
      && (c.poolSize.None? ==> r.poolSize == d.poolSize)
      && (c.uuidFile.None? ==> r.uuidFile == d.uuidFile)
      && (c.debug.None? ==> r.debug == d.debug)
      && (c.rewriteHost.None? ==> r.rewriteHost == d.rewriteHost)
      && (c.cli.None? ==> r.cli == d.cli)
  {
  }

  class ServerAddress {
    var host: string
    var port: int

    constructor (host: string, port: int)
      ensures this.host == host && this.port == port
    {
      this.host := host;
      this.port := port;
    }

    function Value(): Address
      reads this
    {
      Address(host, port)
    }

    /** `_.extend(this, p)`. */
    method Extend(p: ServerPatch)
      modifies this
      ensures Value() == Patch(old(Value()), p)
    {
      if p.host.Some? {
        host := p.host.value;
      }
      if p.port.Some? {
        port := p.port.value;
      }
    }
  }

  class Settings {
    var localServer: ServerAddress
    var remoteServer: ServerAddress
    var poolSize: Option<int>
    var uuidFile: string
    var debug: bool
    var rewriteHost: Option<string>
    var cli: bool

    function Value(): SettingsValue
      reads this, localServer, remoteServer
    {
      SettingsValue(localServer.Value(), remoteServer.Value(), poolSize, uuidFile, debug, rewriteHost, cli)
    }

    /** The object exported by lib/default_settings.js. */
    constructor Defaults(uuidFile: string)
      ensures Value() == DefaultValue(uuidFile) && localServer != remoteServer
      ensures fresh(localServer) && fresh(remoteServer)
    {
      localServer := new ServerAddress("localhost", 3001);
      remoteServer := new ServerAddress("proxy.lodoss.org", 5000);
      poolSize := None;
      this.uuidFile := uuidFile;
      debug := false;
      rewriteHost := None;
      cli := false;
    }

    /** `_.clone(d)`: a new object whose fields are those of `d`; the server objects are shared, not copied. */
    constructor ShallowCopy(d: Settings)
      ensures localServer == d.localServer && remoteServer == d.remoteServer
      ensures Value() == d.Value()
    {
      localServer := d.localServer;
      remoteServer := d.remoteServer;
      poolSize := d.poolSize;
      uuidFile := d.uuidFile;
      debug := d.debug;
      rewriteHost := d.rewriteHost;
      cli := d.cli;
    }

    /** A new object with new server objects holding the same values as `d`'s. */
    constructor DeepCopy(d: Settings)
      ensures fresh(localServer) && fresh(remoteServer) && localServer != remoteServer
      ensures Value() == d.Value()
    {
      localServer := new ServerAddress(d.localServer.host, d.localServer.port);
      remoteServer := new ServerAddress(d.remoteServer.host, d.remoteServer.port);
      poolSize := d.poolSize;
      uuidFile := d.uuidFile;
      debug := d.debug;
      rewriteHost := d.rewriteHost;
      cli := d.cli;
    }

    /** `_.extend(this, _.pick(c, ['pool_size', 'uuid_file', 'debug', 'rewrite_host', 'cli']))`. */
    method ExtendPicked(c: UserConfig)
      modifies this
      ensures localServer == old(localServer) && remoteServer == old(remoteServer)
      ensures poolSize == (if c.poolSize.Some? then c.poolSize else old(poolSize))
      ensures uuidFile == Override(old(uuidFile), c.uuidFile)
      ensures debug == Override(old(debug), c.debug)
      ensures rewriteHost == Override(old(rewriteHost), c.rewriteHost)
      ensures cli == Override(old(cli), c.cli)
    {
      if c.poolSize.Some? {
        poolSize := c.poolSize;
      }
      if c.uuidFile.Some? {
        uuidFile := c.uuidFile.value;
      }
      if c.debug.Some? {
        debug := c.debug.value;
      }
      if c.rewriteHost.Some? {
        rewriteHost := c.rewriteHost.value;
      }
      if c.cli.Some? {
        cli := c.cli.value;
      }
    }

    /** The merge steps after the copy: both server objects, then the picked keys. */
    method MergeInto(config: Option<UserConfig>)
      requires localServer != remoteServer
      modifies this, localServer, remoteServer
      ensures localServer == old(localServer) && remoteServer == old(remoteServer)
      ensures Value() == Merged(old(Value()), config)
    {
      if config.Some? {
        var c := config.value;
        if c.localServer.Some? {
          localServer.Extend(c.localServer.value);
        }
        if c.remoteServer.Some? {
          remoteServer.Extend(c.remoteServer.value);
        }
        ExtendPicked(c);
      }
    }
  }

  /**
   * The settings lib/index.js builds, as written: the shallow copy shares the
   * server objects with `defaults`, so merging a configuration's servers also
   * rewrites the defaults' servers for every later call.
   */
  method CreateSettingsAsWritten(defaults: Settings, config: Option<UserConfig>) returns (s: Settings)
    requires defaults.localServer != defaults.remoteServer
    modifies defaults.localServer, defaults.remoteServer
    ensures fresh(s) && s.localServer == defaults.localServer && s.remoteServer == defaults.remoteServer
    ensures s.Value() == Merged(old(defaults.Value()), config)
    ensures defaults.Value() == old(defaults.Value()).(localServer := s.Value().localServer, remoteServer := s.Value().remoteServer)
  {
    s := new Settings.ShallowCopy(defaults);
    s.MergeInto(config);
  }

  /**
   * Two calls of the factory as written in one process: the first with a
   * local port of 4000, the second with no configuration. The second is meant
   * to equal the defaults, whose local port is 3001, but it gets 4000.
   */
  method DefaultsOverwrittenExample(uuidFile: string) returns (second: SettingsValue)
    ensures second.localServer.port == 4000
    ensures second != DefaultValue(uuidFile)
  {
    var defaults := new Settings.Defaults(uuidFile);
    var first := CreateSettingsAsWritten(defaults, Some(UserConfig(Some(ServerPatch(None, Some(4000))), None, None, None, None, None, None, map[])));
    var s := CreateSettingsAsWritten(defaults, None);
    second := s.Value();
  }

  /**
   * The settings with the copy made deep: the defaults are left as they are,
   * and the result is the merge of the defaults with the configuration.
   */
  method CreateSettings(defaults: Settings, config: Option<UserConfig>) returns (s: Settings)
    ensures fresh(s) && fresh(s.localServer) && fresh(s.remoteServer)
    ensures s.Value() == Merged(defaults.Value(), config)
  {
    s := new Settings.DeepCopy(defaults);
    s.MergeInto(config);
  }

  /** With the deep copy the same two calls leave the second equal to the defaults. */
  method DefaultsKeptExample(uuidFile: string) returns (second: SettingsValue)
    ensures second == DefaultValue(uuidFile)
  {
    var defaults := new Settings.Defaults(uuidFile);
    var first := CreateSettings(defaults, Some(UserConfig(Some(ServerPatch(None, Some(4000))), None, None, None, None, None, None, map[])));
    var s := CreateSettings(defaults, None);
    second := s.Value();
  }

  /** What the client reads of its settings. */
  function ClientConfig(v: SettingsValue): TunnelClient.Config {
    TunnelClient.Config(
      TunnelClient.ServerAddress(v.localServer.host, v.localServer.port),
      TunnelClient.ServerAddress(v.remoteServer.host, v.remoteServer.port),
      v.rewriteHost)
  }

  /**
   * The exported factory: merge, then construct a client. The uuid is what
   * the client reads from, or writes to, its uuid file. The merge is the one
   * of lib/index.js, so the defaults' server objects take the merged values.
   */
  method Expose(defaults: Settings, config: Option<UserConfig>, uuid: string) returns (client: TunnelClient.Client)
    requires defaults.localServer != defaults.remoteServer
    modifies defaults.localServer, defaults.remoteServer
    ensures fresh(client) && client.Valid() && client.uuid == uuid
    ensures client.config == ClientConfig(Merged(old(defaults.Value()), config))
    ensures defaults.Value() == old(defaults.Value()).(
      localServer := Merged(old(defaults.Value()), config).localServer,
      remoteServer := Merged(old(defaults.Value()), config).remoteServer)
    ensures client.socket == None && !client.closed && !client.connected
  {
    var s := CreateSettingsAsWritten(defaults, config);
    client := new TunnelClient.Client(ClientConfig(s.Value()), uuid);
  }
}
