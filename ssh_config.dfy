/** Configuration of the SSH daemon (packages/ssh-server/src/config.rs) and
    how `main` (packages/ssh-server/src/main.rs) settles on the effective
    configuration: the loaded file or the defaults, then the `--port` and
    `--bind` overrides. Reading and parsing the TOML file is a collaborator;
    its outcome is passed in. */
module SshConfig {
  import opened Common

  newtype u16 = x: int | 0 <= x < 0x1_0000

  datatype AuthConfig = AuthConfig(passwordAuth: bool, pubkeyAuth: bool, keyboardInteractive: bool)

  datatype Config = Config(
    bindAddress: string,
    port: u16,
    hostKeyPath: string,
    authorizedKeysDir: string,
    shell: string,
    maxConnections: nat,
    connectionTimeout: nat,
    authentication: AuthConfig,
    sftpEnabled: bool)

  /** `Config::default()`: listen on 0.0.0.0:2222, keys under /etc/rust-sshd,
      `/bin/bash` as the shell, 100 connections, a 300 s timeout, SFTP on,
      password and public-key authentication on, keyboard-interactive off. */
  function DefaultConfig(): (c: Config)
    ensures c.bindAddress == "0.0.0.0" && c.port == 2222
    ensures c.hostKeyPath == "/etc/rust-sshd/host_key"
    ensures c.authorizedKeysDir == "/etc/rust-sshd/authorized_keys"
    ensures c.shell == "/bin/bash" && c.maxConnections == 100 && c.connectionTimeout == 300
    ensures c.sftpEnabled
    ensures c.authentication.passwordAuth && c.authentication.pubkeyAuth
    ensures !c.authentication.keyboardInteractive
  {
    Config(
      "0.0.0.0", 2222,
      "/etc/rust-sshd/host_key", "/etc/rust-sshd/authorized_keys",
      "/bin/bash", 100, 300,
      AuthConfig(true, true, false),
      true)
  }

  const DefaultConfigPath := "/etc/rust-sshd/config.toml"

  /** The command-line arguments: `--config` (default
      /etc/rust-sshd/config.toml), `--port` and `--bind`, both optional. */
  datatype Args = Args(config: string, port: Option<u16>, bind: Option<string>)

  /** The arguments of a bare `rust-sshd` invocation. */
  function NoArgs(): (a: Args)
    ensures a.config == DefaultConfigPath && a.port.None? && a.bind.None?
  {
    Args(DefaultConfigPath, None, None)
  }

  /** `main`: the loaded configuration, or the defaults when the file could
      not be read or parsed, with `port` replaced exactly when `--port` is
      given and `bind_address` exactly when `--bind` is given; every other
      field is the base configuration's. */
  method EffectiveConfig(loaded: Result<Config>, args: Args) returns (config: Config)
    ensures var base := if loaded.Ok? then loaded.value else DefaultConfig();
      && config.port == (if args.port.Some? then args.port.value else base.port)
      && config.bindAddress == (if args.bind.Some? then args.bind.value else base.bindAddress)
      && config.(port := base.port, bindAddress := base.bindAddress) == base
  {
    config := if loaded.Ok? then loaded.value else DefaultConfig();
    if args.port.Some? {
      config := config.(port := args.port.value);
    }
    if args.bind.Some? {
      config := config.(bindAddress := args.bind.value);
    }
  }
}
