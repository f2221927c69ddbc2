/** The per-connection handler of the SSH daemon
    (packages/ssh-server/src/session.rs): the table of session channels, the
    authenticated user, the channel requests of section 6 of RFC 4254
    (`pty-req` 6.2, `env` 6.4, `shell`/`exec` 6.5, `window-change` 6.7) and
    the gating of the `publickey` and `password` methods of sections 7 and 8
    of RFC 4252. Spawning a child is a collaborator whose outcome is passed
    in; a child is opaque apart from its id and the command it runs. */
module SshSession {
  import opened Common
  import opened Decimal
  import opened SshConfig
  import opened SshAuth

  newtype u32 = x: int | 0 <= x < 0x1_0000_0000

  type ChannelId = u32

  /** A `pty-req` record: terminal name, size in characters and pixels, and
      the encoded terminal modes as (opcode, argument) pairs. */
  datatype Pty = Pty(term: string, colWidth: u32, rowHeight: u32, pixWidth: u32, pixHeight: u32,
                     modes: seq<(nat, u32)>)

  /** A command as `tokio::process::Command` builds it after `env_clear`. */
  datatype Command = Command(program: string, args: seq<string>, env: map<string, string>)

  /** A spawned child. */
  datatype Process = Process(pid: nat, command: Command)

  datatype ChannelState = ChannelState(process: Option<Process>, env: map<string, string>,
                                       term: Option<string>, pty: Option<Pty>)

  datatype AuthMethod = Password | PublicKeyMethod | KeyboardInteractive

  /** The answer to an authentication request: accept, or reject naming the
      methods the client may continue with. */
  datatype Auth = Accept | Reject(proceedWithMethods: Option<set<AuthMethod>>)

  /** What `Command::spawn` gave. */
  datatype SpawnResult = Spawned(pid: nat) | SpawnFailed(message: string)

  const NotAuthenticatedMessage := "User not authenticated"
  const ChannelNotFoundMessage := "Channel not found"
  const DefaultPath := "/usr/local/bin:/usr/bin:/bin"
  const DefaultEnvNames: set<string> := {"USER", "HOME", "PATH", "SHELL"}

  /** The state a new session channel starts in. */
  function FreshChannel(): (st: ChannelState)
    ensures st.process.None? && st.env == map[] && st.term.None? && st.pty.None?
  {
    ChannelState(None, map[], None, None)
  }

  /** `term` and `pty` are set together, and the recorded terminal name is
      the pty's. */
  predicate TerminalConsistent(st: ChannelState)
  {
    (st.term.Some? <==> st.pty.Some?) && (st.pty.Some? ==> st.term.value == st.pty.value.term)
  }

  function U32Text(n: u32): string
  {
    NatToString(n as int)
  }

  /** `pty_request` on a known channel. */
  function WithPty(st: ChannelState, term: string, colWidth: u32, rowHeight: u32,
                   pixWidth: u32, pixHeight: u32, modes: seq<(nat, u32)>): ChannelState
  {
    st.(term := Some(term),
        env := st.env["TERM" := term]["COLUMNS" := U32Text(colWidth)]["LINES" := U32Text(rowHeight)],
        pty := Some(Pty(term, colWidth, rowHeight, pixWidth, pixHeight, modes)))
  }

  /** `window_change_request` on a known channel. */
  function WithWindowSize(st: ChannelState, colWidth: u32, rowHeight: u32): ChannelState
  {
    st.(env := st.env["COLUMNS" := U32Text(colWidth)]["LINES" := U32Text(rowHeight)])
  }

  /** `env_request` on a known channel. */
  function WithVariable(st: ChannelState, name: string, value: string): ChannelState
  {
    st.(env := st.env[name := value])
  }

  /** The variables every child gets. */
  function DefaultEnv(user: string, shell: string): map<string, string>
  {
    map["USER" := user, "HOME" := "/home/" + user, "PATH" := DefaultPath, "SHELL" := shell]
  }

  /** The child's environment: the channel's variables, then the defaults,
      which win on a clash. */
  function SpawnEnv(channelEnv: map<string, string>, user: string, shell: string): map<string, string>
  {
    channelEnv + DefaultEnv(user, shell)
  }

  /** `pty-req` records the terminal, the pty, and TERM, COLUMNS and LINES,
      whose values read back as the requested size; no other variable and
      not the process changes. */
  lemma PtyRequestRecordsTerminal(st: ChannelState, term: string, colWidth: u32, rowHeight: u32,
                                  pixWidth: u32, pixHeight: u32, modes: seq<(nat, u32)>)
    ensures var next := WithPty(st, term, colWidth, rowHeight, pixWidth, pixHeight, modes);
      && TerminalConsistent(next) && next.term == Some(term) && next.process == st.process
      && next.pty == Some(Pty(term, colWidth, rowHeight, pixWidth, pixHeight, modes))
      && next.env.Keys == st.env.Keys + {"TERM", "COLUMNS", "LINES"}
      && next.env["TERM"] == term
      && ParseNat(next.env["COLUMNS"]) == Some(colWidth as int)
      && ParseNat(next.env["LINES"]) == Some(rowHeight as int)
      && forall k :: k in st.env && k !in {"TERM", "COLUMNS", "LINES"} ==> next.env[k] == st.env[k]
  {
    ParseNatToString(colWidth as int);
    ParseNatToString(rowHeight as int);
  }

  /** `window-change` rewrites COLUMNS and LINES to the new size and touches
      nothing else: not the other variables, the pty record or the process. */
  lemma WindowChangeTouchesOnlySize(st: ChannelState, colWidth: u32, rowHeight: u32)
    ensures var next := WithWindowSize(st, colWidth, rowHeight);
      && next.process == st.process && next.term == st.term && next.pty == st.pty
      && next.env.Keys == st.env.Keys + {"COLUMNS", "LINES"}
      && ParseNat(next.env["COLUMNS"]) == Some(colWidth as int)
      && ParseNat(next.env["LINES"]) == Some(rowHeight as int)
      && forall k :: k in st.env && k !in {"COLUMNS", "LINES"} ==> next.env[k] == st.env[k]
  {
    ParseNatToString(colWidth as int);
    ParseNatToString(rowHeight as int);
  }

  /** The spawned environment holds exactly the channel's variables and the
      four defaults; the defaults override the channel, and every other
      channel variable reaches the child unchanged. */
  lemma SpawnEnvDefaultsWin(channelEnv: map<string, string>, user: string, shell: string)
    ensures var env := SpawnEnv(channelEnv, user, shell);
      && env.Keys == channelEnv.Keys + DefaultEnvNames
      && env["USER"] == user && env["HOME"] == "/home/" + user
      && env["PATH"] == DefaultPath && env["SHELL"] == shell
      && forall k :: k in channelEnv && k !in DefaultEnvNames ==> env[k] == channelEnv[k]
  {
  }

  /** The command a `shell` request starts: the configured shell, no
      arguments. */
  function ShellCommand(shell: string, channelEnv: map<string, string>, user: string): Command
  {
    Command(shell, [], SpawnEnv(channelEnv, user, shell))
  }

  /** The command an `exec` request starts: `sh -c <command>`. */
  function ExecCommand(command: string, shell: string, channelEnv: map<string, string>, user: string): Command
  {
    Command("sh", ["-c", command], SpawnEnv(channelEnv, user, shell))
  }

  /** The answer to a `publickey` request, given what `authenticate_user`
      reported. */
  function PublickeyAnswer(enabled: bool, verdict: Result<bool>): Auth
  {
    if !enabled then Reject(None)
    else match verdict
      case Ok(true) => Accept
      case Ok(false) => Reject(Some({Password}))
      case Err(_) => Reject(None)
  }

  /** The answer to a `password` request, given what `authenticate_user`
      reported. */
  function PasswordAnswer(enabled: bool, verdict: Result<bool>): Auth
  {
    if !enabled then Reject(None)
    else match verdict
      case Ok(true) => Accept
      case Ok(false) => Reject(None)
      case Err(_) => Reject(None)
  }

  /** A key is accepted exactly when public-key authentication is on and a
      line of the user's key file has the key's fingerprint; a plain miss
      offers the password method, a disabled method or an unreadable file
      offers nothing. */
  lemma PublickeyGate(config: Config, user: string, key: PublicKey, fs: FileSystem, lib: KeyLibrary)
    ensures var a := PublickeyAnswer(config.authentication.pubkeyAuth,
                                     AuthenticateUser(user, Some(key), None, config, fs, lib));
      && (a == Accept <==> config.authentication.pubkeyAuth &&
                           PublicKeyVerdict(user, key, config, fs, lib) == Ok(true))
      && (a == Reject(Some({Password})) <==> config.authentication.pubkeyAuth &&
                                             PublicKeyVerdict(user, key, config, fs, lib) == Ok(false))
      && (a.Reject? && a.proceedWithMethods.Some? ==> a.proceedWithMethods == Some({Password}))
  {
  }

  /** A password is accepted exactly when password authentication is on and
      the pair is demo/demo123; any refusal offers no further method. */
  lemma PasswordGate(config: Config, user: string, password: string, fs: FileSystem, lib: KeyLibrary)
    ensures var a := PasswordAnswer(config.authentication.passwordAuth,
                                    AuthenticateUser(user, None, Some(password), config, fs, lib));
      && (a == Accept <==> config.authentication.passwordAuth && user == DemoUser && password == DemoPassword)
      && (a != Accept ==> a == Reject(None))
  {
  }

  /** With the default configuration the demo account logs in by password. */
  lemma DemoLoginWithDefaults(fs: FileSystem, lib: KeyLibrary)
    ensures PasswordAnswer(DefaultConfig().authentication.passwordAuth,
                           AuthenticateUser(DemoUser, None, Some(DemoPassword), DefaultConfig(), fs, lib)) == Accept
  {
  }

  /** The defaults applied one after the other give the spawned environment. */
  lemma SpawnEnvByUpdates(channelEnv: map<string, string>, user: string, shell: string)
    ensures SpawnEnv(channelEnv, user, shell) ==
      channelEnv["USER" := user]["HOME" := "/home/" + user]["PATH" := DefaultPath]["SHELL" := shell]
  {
  }

  /** Builds the child's environment as the handler does: the channel's
      variables one by one, then the four defaults. */
  method BuildEnv(channelEnv: map<string, string>, user: string, shell: string) returns (env: map<string, string>)
    ensures env == SpawnEnv(channelEnv, user, shell)
  {
    env := map[];
    var pending := channelEnv.Keys;
    while pending != {}
      invariant pending <= channelEnv.Keys
      invariant env.Keys == channelEnv.Keys - pending
      invariant forall k :: k in env ==> env[k] == channelEnv[k]
      decreases |pending|
    {
      var k :| k in pending;
      env := env[k := channelEnv[k]];
      pending := pending - {k};
    }
    assert env == channelEnv;
    SpawnEnvByUpdates(channelEnv, user, shell);
    env := env["USER" := user]["HOME" := "/home/" + user]["PATH" := DefaultPath]["SHELL" := shell];
  }

  /** `tcpip_forward`: remote forwarding (section 7.1 of RFC 4254) is always
      refused. */
  method TcpipForward(address: string, port: u32) returns (granted: bool)
    ensures !granted
  {
    granted := false;
  }

  /** `cancel_tcpip_forward`: cancellation is always acknowledged. */
  method CancelTcpipForward(address: string, port: u32) returns (granted: bool)
    ensures granted
  {
    granted := true;
  }

  /** One connection's handler. `killed` records the children that closing a
      channel killed. */
  class SessionHandler {
    const config: Config
    var authenticatedUser: Option<string>
    var channels: map<ChannelId, ChannelState>
    var killed: seq<Process>

    /** Every channel's terminal fields agree, and no channel has a child
        before some user authenticated. */
    ghost predicate Valid()
      reads this
    {
      && (forall c :: c in channels ==> TerminalConsistent(channels[c]))
      && (authenticatedUser.None? ==> forall c :: c in channels ==> channels[c].process.None?)
    }

    constructor (config: Config)
      ensures Valid() && this.config == config
      ensures authenticatedUser.None? && channels == map[] && killed == []
    {
      this.config := config;
      authenticatedUser := None;
      channels := map[];
      killed := [];
    }

    /** `channel_open_session`: a fresh state under the id; always granted. */
    method ChannelOpenSession(channel: ChannelId) returns (granted: bool)
      requires Valid()
      modifies this
      ensures Valid() && granted
      ensures channels == old(channels)[channel := FreshChannel()]
      ensures authenticatedUser == old(authenticatedUser) && killed == old(killed)
    {
      channels := channels[channel := ChannelState(None, map[], None, None)];
      granted := true;
    }

    /** `auth_publickey`: gated by `pubkey_auth`; success records the user. */
    method AuthPublickey(user: string, key: PublicKey, fs: FileSystem, lib: KeyLibrary) returns (answer: Auth)
      requires Valid()
      modifies this
      ensures Valid()
      ensures answer == PublickeyAnswer(config.authentication.pubkeyAuth,
                                        AuthenticateUser(user, Some(key), None, config, fs, lib))
      ensures authenticatedUser == if answer == Accept then Some(user) else old(authenticatedUser)
      ensures channels == old(channels) && killed == old(killed)
    {
      if !config.authentication.pubkeyAuth {
        return Reject(None);
      }
      var verdict := AuthenticateUser(user, Some(key), None, config, fs, lib);
      match verdict {
        case Ok(true) =>
          authenticatedUser := Some(user);
          answer := Accept;
        case Ok(false) =>
          answer := Reject(Some({Password}));
        case Err(_) =>
          answer := Reject(None);
      }
    }

    /** `auth_password`: gated by `password_auth`; success records the user. */
    method AuthPassword(user: string, password: string, fs: FileSystem, lib: KeyLibrary) returns (answer: Auth)
      requires Valid()
      modifies this
      ensures Valid()
      ensures answer == PasswordAnswer(config.authentication.passwordAuth,
                                       AuthenticateUser(user, None, Some(password), config, fs, lib))
      ensures authenticatedUser == if answer == Accept then Some(user) else old(authenticatedUser)
      ensures channels == old(channels) && killed == old(killed)
    {
      if !config.authentication.passwordAuth {
        return Reject(None);
      }
      var verdict := AuthenticateUser(user, None, Some(password), config, fs, lib);
      match verdict {
        case Ok(true) =>
          authenticatedUser := Some(user);
          answer := Accept;
        case Ok(false) =>
          answer := Reject(None);
        case Err(_) =>
          answer := Reject(None);
      }
    }

    /** `channel_close`: removes that channel's entry only, and kills its
        child if it has one. */
    method ChannelClose(channel: ChannelId)
      requires Valid()
      modifies this
      ensures Valid()
      ensures channels == old(channels) - {channel}
      ensures killed == if channel in old(channels) && old(channels)[channel].process.Some?
                        then old(killed) + [old(channels)[channel].process.value] else old(killed)
      ensures authenticatedUser == old(authenticatedUser)
    {
      if channel in channels {
        var state := channels[channel];
        channels := channels - {channel};
        if state.process.Some? {
          killed := killed + [state.process.value];
        }
      }
    }

    /** `pty_request`: records the terminal on a known channel; an unknown
        channel is ignored. */
    method PtyRequest(channel: ChannelId, term: string, colWidth: u32, rowHeight: u32,
                      pixWidth: u32, pixHeight: u32, modes: seq<(nat, u32)>)
      requires Valid()
      modifies this
      ensures Valid()
      ensures channels == if channel in old(channels)
        then old(channels)[channel := WithPty(old(channels)[channel], term, colWidth, rowHeight, pixWidth, pixHeight, modes)]
        else old(channels)
      ensures authenticatedUser == old(authenticatedUser) && killed == old(killed)
    {
      if channel in channels {
        channels := channels[channel := WithPty(channels[channel], term, colWidth, rowHeight, pixWidth, pixHeight, modes)];
      }
    }

    /** `env_request`: sets one variable on a known channel. */
    method EnvRequest(channel: ChannelId, name: string, value: string)
      requires Valid()
      modifies this
      ensures Valid()
      ensures channels == if channel in old(channels)
        then old(channels)[channel := WithVariable(old(channels)[channel], name, value)]
        else old(channels)
      ensures authenticatedUser == old(authenticatedUser) && killed == old(killed)
    {
      if channel in channels {
        channels := channels[channel := WithVariable(channels[channel], name, value)];
      }
    }

    /** `window_change_request`: rewrites COLUMNS and LINES on a known
        channel. */
    method WindowChangeRequest(channel: ChannelId, colWidth: u32, rowHeight: u32, pixWidth: u32, pixHeight: u32)
      requires Valid()
      modifies this
      ensures Valid()
      ensures channels == if channel in old(channels)
        then old(channels)[channel := WithWindowSize(old(channels)[channel], colWidth, rowHeight)]
        else old(channels)
      ensures authenticatedUser == old(authenticatedUser) && killed == old(killed)
    {
      if channel in channels {
        channels := channels[channel := WithWindowSize(channels[channel], colWidth, rowHeight)];
      }
    }

    /** Shared tail of `shell_request` and `exec_request`: the
        authentication check, then the channel check, then the spawn. */
    method Launch(channel: ChannelId, program: string, args: seq<string>, spawn: SpawnResult)
      returns (r: Result<()>)
      requires Valid()
      modifies this
      ensures Valid()
      ensures old(authenticatedUser).None? ==> r == Err(NotAuthenticatedMessage) && channels == old(channels)
      ensures old(authenticatedUser).Some? && channel !in old(channels) ==>
        r == Err(ChannelNotFoundMessage) && channels == old(channels)
      ensures old(authenticatedUser).Some? && channel in old(channels) && spawn.SpawnFailed? ==>
        r == Err(spawn.message) && channels == old(channels)
      ensures old(authenticatedUser).Some? && channel in old(channels) && spawn.Spawned? ==>
        var state := old(channels)[channel];
        var command := Command(program, args, SpawnEnv(state.env, old(authenticatedUser).value, config.shell));
        r == Ok(()) && channels == old(channels)[channel := state.(process := Some(Process(spawn.pid, command)))]
      ensures authenticatedUser == old(authenticatedUser) && killed == old(killed)
    {
      if authenticatedUser.None? {
        return Err(NotAuthenticatedMessage);
      }
      var user := authenticatedUser.value;
      if channel !in channels {
        return Err(ChannelNotFoundMessage);
      }
      var state := channels[channel];
      var env := BuildEnv(state.env, user, config.shell);
      match spawn {
        case SpawnFailed(m) =>
          return Err(m);
        case Spawned(pid) =>
          channels := channels[channel := state.(process := Some(Process(pid, Command(program, args, env))))];
          return Ok(());
      }
    }

    /** `shell_request`: starts the configured shell. */
    method ShellRequest(channel: ChannelId, spawn: SpawnResult) returns (r: Result<()>)
      requires Valid()
      modifies this
      ensures Valid()
      ensures old(authenticatedUser).None? ==> r == Err(NotAuthenticatedMessage) && channels == old(channels)
      ensures old(authenticatedUser).Some? && channel !in old(channels) ==>
        r == Err(ChannelNotFoundMessage) && channels == old(channels)
      ensures old(authenticatedUser).Some? && channel in old(channels) && spawn.SpawnFailed? ==>
        r == Err(spawn.message) && channels == old(channels)
      ensures old(authenticatedUser).Some? && channel in old(channels) && spawn.Spawned? ==>
        var state := old(channels)[channel];
        var command := ShellCommand(config.shell, state.env, old(authenticatedUser).value);
        r == Ok(()) && channels == old(channels)[channel := state.(process := Some(Process(spawn.pid, command)))]
      ensures authenticatedUser == old(authenticatedUser) && killed == old(killed)
    {
      r := Launch(channel, config.shell, [], spawn);
    }

    /** `exec_request`: starts `sh -c <command>`. */
    method ExecRequest(channel: ChannelId, command: string, spawn: SpawnResult) returns (r: Result<()>)
      requires Valid()
      modifies this
      ensures Valid()
      ensures old(authenticatedUser).None? ==> r == Err(NotAuthenticatedMessage) && channels == old(channels)
      ensures old(authenticatedUser).Some? && channel !in old(channels) ==>
        r == Err(ChannelNotFoundMessage) && channels == old(channels)
      ensures old(authenticatedUser).Some? && channel in old(channels) && spawn.SpawnFailed? ==>
        r == Err(spawn.message) && channels == old(channels)
      ensures old(authenticatedUser).Some? && channel in old(channels) && spawn.Spawned? ==>
        var state := old(channels)[channel];
        var cmd := ExecCommand(command, config.shell, state.env, old(authenticatedUser).value);
        r == Ok(()) && channels == old(channels)[channel := state.(process := Some(Process(spawn.pid, cmd)))]
      ensures authenticatedUser == old(authenticatedUser) && killed == old(killed)
    {
      r := Launch(channel, "sh", ["-c", command], spawn);
    }
  }

  /** The environment of the demo user's shell after `LANG=C.UTF-8`. */
  lemma DemoChildEnvironment()
    ensures var env := SpawnEnv(map["LANG" := "C.UTF-8"], DemoUser, "/bin/bash");
      && env.Keys == {"LANG", "USER", "HOME", "PATH", "SHELL"}
      && env["LANG"] == "C.UTF-8" && env["USER"] == "demo" && env["HOME"] == "/home/demo"
  {
    SpawnEnvDefaultsWin(map["LANG" := "C.UTF-8"], DemoUser, "/bin/bash");
  }

  /** A whole exchange on the default configuration: open a channel, ask for
      a shell before logging in (refused), log in as demo, set a variable,
      start the shell. The child runs the default shell with the channel's
      variable and the demo user's defaults. */
  method DemoShellSession(fs: FileSystem, lib: KeyLibrary) returns (before: Result<()>, after: Result<()>, child: Command)
    ensures before == Err(NotAuthenticatedMessage) && after == Ok(())
    ensures child.program == "/bin/bash" && child.args == []
    ensures child.env.Keys == {"LANG", "USER", "HOME", "PATH", "SHELL"}
    ensures child.env["LANG"] == "C.UTF-8" && child.env["USER"] == "demo" && child.env["HOME"] == "/home/demo"
  {
    var handler := new SessionHandler(DefaultConfig());
    var granted := handler.ChannelOpenSession(0);
    assert handler.channels == map[0 := FreshChannel()];
    before := handler.ShellRequest(0, Spawned(7));
    DemoLoginWithDefaults(fs, lib);
    var answer := handler.AuthPassword(DemoUser, DemoPassword, fs, lib);
    assert handler.authenticatedUser == Some(DemoUser);
    handler.EnvRequest(0, "LANG", "C.UTF-8");
    var env := map["LANG" := "C.UTF-8"];
    assert handler.channels == map[0 := ChannelState(None, env, None, None)];
    after := handler.ShellRequest(0, Spawned(7));
    child := handler.channels[0].process.value.command;
    assert child == ShellCommand("/bin/bash", env, DemoUser);
    DemoChildEnvironment();
  }
}
