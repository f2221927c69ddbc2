# Docker workspace manager and its SSH daemon, modelled in Dafny

This project models the stateful core of the docker workspace manager. It has two halves.

The TypeScript workspace server:
- The workspace controller (`server/src/index.ts`):
  - port allocation against the stored rows;
  - the create/start/stop/restart/remove handlers over the workspace table;
  - the list and lookup queries.
- The Jupyter proxy's route memo and path rewrite (`server/src/app.ts`).
- The identity middleware (`server/src/middleware/contextUser.ts` and `server/src/middleware/auth.ts`):
  - bearer-token extraction in the style of section 2.1 of RFC 6750;
  - the deactivated-account check;
  - the `needLogin` guard.

The Rust SSH daemon (`packages/ssh-server`):
- The per-connection session handler (`session.rs`). It keeps a channel table and the authenticated user. It serves the channel requests of section 6 of RFC 4254, and it gates the `publickey` and `password` methods of sections 7 and 8 of RFC 4252.
- The authenticator (`auth.rs`):
  - the scan of the user's `authorized_keys` file (the AUTHORIZED_KEYS FILE FORMAT section of sshd(8));
  - comparison of keys by SHA-256 fingerprint (FIPS 180-4) printed as unpadded Base64 (section 4 of RFC 4648);
  - the demo password check.
- The configuration defaults and the `--port`/`--bind` overrides (`config.rs`, `main.rs`).

Everything outside the model is a parameter. This covers the container runtime, `get-port`, JWT verification, the file system, process spawning, and the Base64, key-parsing and hashing libraries:
- A call that may fail is a `Call<T>` (`Returned(v)` or `Threw(message)`).
- `get-port`'s successive answers are a finite sequence of candidates.
- Libraries are function-typed fields of a `KeyLibrary` value.
- The file system is a map from path to file.

Classes carry the state the source mutates:
- `Workspaces.Controller`: the workspace table `rows`, the id generator, and a log of runtime calls.
- `JupyterProxy.Router`: the process-global route memo.
- `Identity.Request` and `Identity.Response`.
- `SshSession.SessionHandler`: the channel table, the authenticated user, and the children killed on close.

Each method's contract gives the new state in terms of a pure function of the old one. The lemmas state the properties the source promises about those functions.

Files, one module each:
- `common.dfy`: `Common`
- `decimal.dfy`: `Decimal`
- `entities.dfy`: `Entities`
- `identity.dfy`: `Identity`
- `workspaces.dfy`: `Workspaces`
- `jupyter_proxy.dfy`: `JupyterProxy`
- `ssh_config.dfy`: `SshConfig`
- `ssh_auth.dfy`: `SshAuth`
- `ssh_session.dfy`: `SshSession`

## Model

| member | source | states |
|---|---|---|
| Decimal.NatToString | server/src/index.ts:126 | the decimal text of a port is non-empty, digits only, without a leading zero |
| Decimal.ParseNatToString | server/src/index.ts:126 | reading the decimal text of a number back gives the number (round trip used for `HostPort` and for COLUMNS/LINES) |
| Decimal.NatToStringInjective | server/src/index.ts:126 | distinct ports render as distinct `HostPort` strings |
| Identity.SkipSpaces | server/src/middleware/contextUser.ts:20 | the result is no longer than the input, strictly shorter when the input starts with `\s`, and does not start with `\s` |
| Identity.SkipSpacesDropsLeadingRun | server/src/middleware/contextUser.ts:20 | what is dropped is exactly a leading run of ECMAScript `\s` characters; the result is the rest of the input |
| Identity.SplitWs | server/src/middleware/contextUser.ts:20 | `split(/\s+/)` yields at least one field and no field contains whitespace |
| Identity.ExtractToken | server/src/middleware/contextUser.ts:19-20 | a non-empty second field of `Authorization` is the token, whatever the query holds; otherwise the token is the non-empty `token` query; it is absent exactly when both are missing or empty |
| Identity.SplitSchemeAndToken | server/src/middleware/contextUser.ts:20 | `<scheme><whitespace><token>` splits into exactly `[scheme, token]` |
| Identity.BearerHeaderYieldsToken | server/src/middleware/contextUser.ts:19-20 | a well-formed bearer header yields its token whatever the query says |
| Identity.LeadingSpaceHeaderYieldsScheme | server/src/middleware/contextUser.ts:19-20 | a header that starts with whitespace has an empty first field, so its scheme word is taken as the token |
| Identity.SchemeOnlyFallsBackToQuery | server/src/middleware/contextUser.ts:19-20 | a header with no second field falls back to the query token |
| Identity.Identify | server/src/middleware/contextUser.ts:22-38 | anonymous iff no token; fails iff verification fails or the user has status 0, with the library's message or "The account has been deactivated"; otherwise the user with the decoded id (or none), never a deactivated one |
| Identity.AttachedUserIsTokenSubject | server/src/middleware/contextUser.ts:29-35 | an attached user is the token's subject and is not deactivated |
| Identity.ContextUser | server/src/middleware/contextUser.ts:17-42 | no token: `next()` with `req.user` untouched; failure: throws that message without setting `req.user`; otherwise sets `req.user` and calls `next()` |
| Identity.NeedLogin | server/src/middleware/auth.ts:3-11 | without a user: status 401 and "Unauthorized" thrown, no `next()`; with a user: `next()` and the status untouched |
| Workspaces.CreateSpec | server/src/index.ts:107-141 | the options passed to `docker.createContainer`: image, name, tty, stdin, the code-server command, `CS_BASE_URL=/vscode/{name}`, the cleared entrypoint, the tools bind, the IDE port bound to 8080/tcp only, all GPUs, privileged, 8080/tcp and 22/tcp exposed |
| Workspaces.CreateSpecShape | server/src/index.ts:107-141 | the spec publishes host `codeServerPort` as 8080/tcp, sets `CS_BASE_URL=/vscode/{name}`, mounts the tools dir at `/tools`, and runs code-server on 0.0.0.0:8080 with `--auth none` |
| Workspaces.SshPortNotPublished | server/src/index.ts:124-140 | 22/tcp is exposed but has no host binding, so the allocated SSH port is never published |
| Workspaces.PublishingSpecPublishesBoth | server/src/index.ts:126 | the corrected spec publishes both allocated ports |
| Workspaces.FirstUnused | server/src/index.ts:89-97 | one `while (true)` loop of `getPorts`: the first `get-port` answer not already stored for that kind, or none when the answers run out |
| Workspaces.FirstUnusedIsEarliestFree | server/src/index.ts:89-97 | the scan returns the earliest candidate not in use; it is exhausted exactly when every candidate is in use |
| Workspaces.AllocatePorts | server/src/index.ts:81-99 | `getPorts`: the SSH and IDE ports chosen independently from the stored rows, or none when either scan runs out |
| Workspaces.AllocatedPortsAreUnused | server/src/index.ts:81-99 | the SSH port is no row's SSH port and the IDE port is no row's IDE port; both come from the candidates |
| Workspaces.CrossKindCollisionAllowed | server/src/index.ts:83-97 | the checks are independent: an SSH port may equal a stored row's IDE port |
| Workspaces.AllocatedRowKeepsPortsDistinct | server/src/index.ts:143-149 | inserting a row with allocated ports keeps SSH ports, and IDE ports, pairwise distinct |
| Workspaces.OwnedByMembership | server/src/index.ts:68-70 | a workspace is listed for a user iff its row is stored and that user owns it |
| Workspaces.RemovedRowNotListed | server/src/index.ts:217-218 | a deleted row appears in no user's list |
| Workspaces.UnownedRowNeverListed | server/src/index.ts:68-70 | a row without an owner is listed for no user |
| Workspaces.OwnedRowListed | server/src/index.ts:68-70 | a row owned by a user is in that user's list |
| Workspaces.Controller.GetPorts | server/src/index.ts:81-100 | the two loops return exactly the allocation function's ports, each unused for its purpose, or exhaustion |
| Workspaces.Controller.Create | server/src/index.ts:102-152 | exhaustion makes no call and adds no row; otherwise create then inspect; a failed create, inspect or save adds no row (the container stays after a failed save); on success exactly one new row with the next id, the name, container id, both ports and the inspected status, and no owner, and the id generator advances by one; port distinctness is kept |
| Workspaces.Controller.CreateOwned | server/src/index.ts:143-149 | the corrected create: as `Create`, with the owner recorded and both ports published |
| Workspaces.Controller.Start | server/src/index.ts:154-189 | unknown id: 404 with no runtime call and no change; otherwise start then inspect, and only that row's status becomes the inspected state |
| Workspaces.Controller.RefreshStatus | server/src/index.ts:163-165 | inspects the row's container and stores the reported state as its status, nothing else |
| Workspaces.Controller.Stop | server/src/index.ts:200-210 | as start, with the runtime's stop |
| Workspaces.Controller.Restart | server/src/index.ts:191-198 | unknown id: 404 with no runtime call; otherwise one restart call, and the table, status included, is unchanged |
| Workspaces.Controller.RestartRefreshed | server/src/index.ts:196 | the corrected restart also re-inspects and stores the status |
| Workspaces.Controller.Remove | server/src/index.ts:212-220 | unknown id: 404 with no call; otherwise runtime remove, then exactly that row is deleted; a failing remove keeps the row |
| Workspaces.Controller.FindByContainerId | server/src/index.ts:75-79 | returns a stored row whose container id (not numeric id) matches; `null` iff no row matches |
| Workspaces.Controller.List | server/src/index.ts:67-73 | needs a logged-in user (else 401 "Unauthorized"); returns exactly the rows that user owns |
| Workspaces.CreatedWorkspaceIsNeverListed | server/src/index.ts:143-149 | a workspace created through the handler is missing from its creator's list |
| Workspaces.OwnedCreationIsListed | server/src/index.ts:143-149 | with the owner recorded, the creator's list holds the new workspace |
| Workspaces.RestartLeavesStatusStale | server/src/index.ts:196 | after a restart the stored status is still the pre-restart value |
| Workspaces.RefreshedRestartRecordsStatus | server/src/index.ts:196 | the corrected restart stores the runtime's new state |
| JupyterProxy.RewritePath | server/src/app.ts:22 | the `pathRewrite` rule: a leading `/jupyter/{id}` is removed, any other path is kept |
| JupyterProxy.RewriteRemovesPrefix | server/src/app.ts:22 | the rewrite strips exactly a leading `/jupyter/{id}` and leaves other paths alone |
| JupyterProxy.RewriteOfRoutedPath | server/src/app.ts:43 | `/jupyter/{id}{rest}` is forwarded as `rest` |
| JupyterProxy.Serve | server/src/app.ts:15-50 | the middleware on one request: a truthy memo entry forwards; otherwise inspect, store `http://{ip}:8888` and forward, or answer 500 naming the container |
| JupyterProxy.CacheHitIgnoresInspection | server/src/app.ts:19-26 | a hit forwards to the stored target with no inspection and no memo change |
| JupyterProxy.MissStoresBackend | server/src/app.ts:32-37 | a miss with an address stores and forwards to `http://{ip}:8888` |
| JupyterProxy.FailureNamesContainer | server/src/app.ts:47-49 | a failed inspection or a missing address answers 500 with a body containing the id, and stores nothing |
| JupyterProxy.ServeExtends | server/src/app.ts:37 | one request never removes or overwrites an entry |
| JupyterProxy.CacheIsMonotone | server/src/app.ts:12-37 | over any sequence of requests every stored entry survives unchanged |
| JupyterProxy.StoredTargetIsFinal | server/src/app.ts:19-26 | after any history, a stored id is forwarded to the target it was first given |
| JupyterProxy.Router.Handle | server/src/app.ts:15-50 | the memo and action follow `Serve`; the container is inspected only on a miss |
| SshConfig.DefaultConfig | packages/ssh-server/src/config.rs:26-44 | every default value: 0.0.0.0:2222, key paths under /etc/rust-sshd, /bin/bash, 100 connections, 300 s, SFTP on, password and pubkey on, keyboard-interactive off |
| SshConfig.NoArgs | packages/ssh-server/src/main.rs:18-30 | the default config path is /etc/rust-sshd/config.toml and no override is given |
| SshConfig.EffectiveConfig | packages/ssh-server/src/main.rs:40-51 | the loaded config or the defaults; the port is replaced iff `--port` is given and the bind address iff `--bind` is given; no other field changes |
| SshAuth.TrimStart | packages/ssh-server/src/auth.rs:47 | no longer than the input; does not start with whitespace |
| SshAuth.TrimEnd | packages/ssh-server/src/auth.rs:47 | no longer than the input; keeps the first character; does not end with whitespace |
| SshAuth.Trim | packages/ssh-server/src/auth.rs:47 | the trimmed line neither starts nor ends with whitespace |
| SshAuth.TrimStartDropsLeadingRun | packages/ssh-server/src/auth.rs:47 | `trim_start` removes exactly a leading run of whitespace and keeps the rest |
| SshAuth.TrimEndDropsTrailingRun | packages/ssh-server/src/auth.rs:47 | `trim_end` removes exactly a trailing run of whitespace and keeps the rest |
| SshAuth.TrimKeepsMiddle | packages/ssh-server/src/auth.rs:47 | the trimmed line is the input's slice between its leading and trailing whitespace runs, unchanged |
| SshAuth.SplitWhitespace | packages/ssh-server/src/auth.rs:53 | every field is non-empty and whitespace-free |
| SshAuth.Lines | packages/ssh-server/src/auth.rs:46 | `str::lines`: split at `\n`, drop one `\r` before each `\n`, no empty last line after a final `\n` |
| SshAuth.LinesOfLineThenRest | packages/ssh-server/src/auth.rs:46 | a line ended by `\n` is the first line (one `\r` dropped) and the rest's lines follow |
| SshAuth.LineKey | packages/ssh-server/src/auth.rs:47-59 | the key a line holds: none for blank, `#`, one-field or undecodable lines, else the key decoded from its first two fields |
| SshAuth.DecodePublicKey | packages/ssh-server/src/auth.rs:87-98 | decodes iff the type is ssh-rsa, ssh-ed25519 or ecdsa-sha2-nistp256 and the Base64 decodes and parses; the key is then the parser's |
| SshAuth.KeysEqualIsEquivalence | packages/ssh-server/src/auth.rs:100-105 | fingerprint equality is reflexive, symmetric and transitive |
| SshAuth.KeyFilePath | packages/ssh-server/src/auth.rs:36 | `authorized_keys_dir.join("{user}.pub")` with `PathBuf::join` semantics on Unix paths |
| SshAuth.DefaultKeyFilePath | packages/ssh-server/src/auth.rs:36 | with the defaults a plain user's keys are `/etc/rust-sshd/authorized_keys/{user}.pub` |
| SshAuth.AbsoluteUsernameEscapesDirectory | packages/ssh-server/src/auth.rs:36 | a user name that is an absolute path replaces the configured directory |
| SshAuth.PublicKeyVerdict | packages/ssh-server/src/auth.rs:31-68 | what `authenticate_public_key` answers: no file, false; unreadable, the error; otherwise whether some line authorizes the key |
| SshAuth.AuthenticatePublicKey | packages/ssh-server/src/auth.rs:31-68 | no file: false; unreadable file: error; otherwise true iff some line authorizes the key, stopping at the first such line |
| SshAuth.ScanLines | packages/ssh-server/src/auth.rs:46-65 | true iff some line authorizes the key; when true, the scan ends at the first such line and every earlier line authorizes nothing |
| SshAuth.AuthenticatePassword | packages/ssh-server/src/auth.rs:70-85 | never fails; true iff the user is "demo" and the password "demo123" |
| SshAuth.AuthenticateUser | packages/ssh-server/src/auth.rs:11-29 | a key is checked alone even if a password is given; else the password; with neither, false |
| SshAuth.MissingKeyFileRefuses | packages/ssh-server/src/auth.rs:38-41 | a missing key file refuses the key without error |
| SshAuth.SkippedLineDoesNotEndScan | packages/ssh-server/src/auth.rs:46-64 | a line that authorizes nothing can be put in front of the file without changing the verdict |
| SshAuth.AnyLineAcceptsCons | packages/ssh-server/src/auth.rs:46-64 | some line of `first` followed by more lines authorizes the key iff `first` does or some later line does |
| SshAuth.CommentOrBlankNeverAccepts | packages/ssh-server/src/auth.rs:48-50 | blank and `#` lines never authorize a key |
| SshAuth.UnsupportedTypeNeverAccepts | packages/ssh-server/src/auth.rs:89-97 | a line whose key type is unsupported never authorizes a key |
| SshAuth.WellFormedLineAccepts | packages/ssh-server/src/auth.rs:53-63 | `<supported type> <base64>` whose key has the offered fingerprint authorizes it |
| SshAuth.SupportedTypeIsWord | packages/ssh-server/src/auth.rs:89-97 | each supported key type name is a non-empty word without whitespace |
| SshAuth.TrimOfTrimmedLine | packages/ssh-server/src/auth.rs:47 | a non-empty line that neither starts nor ends with whitespace is its own trim |
| SshSession.FreshChannel | packages/ssh-server/src/session.rs:53-58 | a new channel has no process, an empty env, no term and no pty |
| SshSession.WithPty | packages/ssh-server/src/session.rs:173-189 | a known channel after `pty_request`: term, TERM/COLUMNS/LINES and the pty record set |
| SshSession.PtyRequestRecordsTerminal | packages/ssh-server/src/session.rs:173-189 | `pty-req` sets term, the pty record and TERM/COLUMNS/LINES (reading back as the size); other variables and the process are unchanged |
| SshSession.WithWindowSize | packages/ssh-server/src/session.rs:446-450 | a known channel after `window_change_request`: COLUMNS and LINES rewritten |
| SshSession.WithVariable | packages/ssh-server/src/session.rs:206-212 | a known channel after `env_request`: one variable set |
| SshSession.WindowChangeTouchesOnlySize | packages/ssh-server/src/session.rs:446-450 | `window-change` rewrites only COLUMNS/LINES to the new size |
| SshSession.SpawnEnv | packages/ssh-server/src/session.rs:238-249 | the child's environment after `env_clear`: the channel's variables, then USER, HOME, PATH and SHELL over them |
| SshSession.SpawnEnvDefaultsWin | packages/ssh-server/src/session.rs:240-249 | the child's env is the channel's variables plus USER, HOME=/home/{user}, PATH and SHELL; the defaults win and other variables pass unchanged |
| SshSession.SpawnEnvByUpdates | packages/ssh-server/src/session.rs:246-249 | setting the four defaults one after another gives the spawned env |
| SshSession.PublickeyAnswer | packages/ssh-server/src/session.rs:63-95 | `auth_publickey`'s answer: reject without follow-up when disabled or on error, accept on true, offer password on false |
| SshSession.PublickeyGate | packages/ssh-server/src/session.rs:63-95 | accept iff pubkey auth is on and the key file authorizes the key; a plain miss offers only PASSWORD; otherwise no follow-up |
| SshSession.PasswordAnswer | packages/ssh-server/src/session.rs:97-129 | `auth_password`'s answer: accept on true, otherwise reject without follow-up |
| SshSession.PasswordGate | packages/ssh-server/src/session.rs:97-129 | accept iff password auth is on and the pair is demo/demo123; every refusal offers no follow-up |
| SshSession.DemoChildEnvironment | packages/ssh-server/src/session.rs:240-249 | the demo user's shell with `LANG=C.UTF-8` gets exactly LANG, USER, HOME, PATH and SHELL, with LANG kept, USER `demo` and HOME `/home/demo` |
| SshSession.DemoLoginWithDefaults | packages/ssh-server/src/session.rs:110-114 | with the defaults, demo/demo123 is accepted |
| SshSession.BuildEnv | packages/ssh-server/src/session.rs:240-249 | the loop over the channel's variables, then the defaults, yields exactly the spawned env |
| SshSession.TcpipForward | packages/ssh-server/src/session.rs:471-481 | remote forwarding is always refused |
| SshSession.CancelTcpipForward | packages/ssh-server/src/session.rs:483-491 | cancelling a forward is always acknowledged |
| SshSession.SessionHandler.constructor | packages/ssh-server/src/session.rs:32-38 | no user, no channels |
| SshSession.SessionHandler.ChannelOpenSession | packages/ssh-server/src/session.rs:45-61 | inserts a fresh state under the id and grants the channel |
| SshSession.SessionHandler.AuthPublickey | packages/ssh-server/src/session.rs:63-95 | the answer is the gate's; the user is recorded exactly on accept; the table is unchanged |
| SshSession.SessionHandler.AuthPassword | packages/ssh-server/src/session.rs:97-129 | the answer is the gate's; the user is recorded exactly on accept; the table is unchanged |
| SshSession.SessionHandler.ChannelClose | packages/ssh-server/src/session.rs:131-146 | removes only that channel and kills its child if it has one |
| SshSession.SessionHandler.PtyRequest | packages/ssh-server/src/session.rs:157-192 | a known channel gets the pty update; an unknown channel changes nothing |
| SshSession.SessionHandler.EnvRequest | packages/ssh-server/src/session.rs:194-215 | a known channel gets one variable set; an unknown channel changes nothing |
| SshSession.SessionHandler.WindowChangeRequest | packages/ssh-server/src/session.rs:432-469 | a known channel gets new COLUMNS/LINES; an unknown channel changes nothing |
| SshSession.SessionHandler.Launch | packages/ssh-server/src/session.rs:224-258 | "User not authenticated" first, then "Channel not found", then a spawn error, with no change; on success the channel's process runs with the spawned env |
| SshSession.SessionHandler.ShellRequest | packages/ssh-server/src/session.rs:217-305 | the guards of `Launch`; the child runs the configured shell with no arguments |
| SshSession.SessionHandler.ExecRequest | packages/ssh-server/src/session.rs:307-402 | the guards of `Launch`; the child runs `sh -c <command>` |
| SshSession.DemoShellSession | packages/ssh-server/src/session.rs:217-258 | a shell before login is refused; after the demo login the shell is /bin/bash with the channel's variable and the demo defaults |

## Left out

- Docker, `get-port`, `jsonwebtoken`, tokio process and file I/O, russh transport. These are collaborators whose results are parameters. The runtime's own effects, such as a container actually starting, are not modelled.
- The workspace table is state of the model (`Controller.rows`), not a collaborator. Only the create handler's `save` can fail (its `saved` parameter). Every other repository call (`find`, `findOneBy`, `save` of a status, `remove`) always succeeds in the model; database failures such as a locked or full file are not modelled.
- Workspaces.Controller.Create: `name` and `image` are strings. A body without them is not modelled as such: JavaScript would pass `undefined` (so `CS_BASE_URL=/vscode/undefined`), and the NOT NULL `name` column would make the save throw; that last step is the `saved` parameter's `Threw` case.
- Workspaces.Controller.GetPorts: the source loops forever when no port qualifies. The model scans a finite sequence of `get-port` answers and reports `PortExhausted` when it runs out.
- Workspaces.Controller.FindByContainerId: which row the database returns when several share a container id is left as an arbitrary choice.
- TypeORM corner cases are not modelled:
  - `findOneBy({ id: NaN })` from a non-numeric path id;
  - `findOneBy({ id: undefined })` from a token payload without `id`, which would match an arbitrary row.

  A path id is modelled as an integer. JavaScript's `parseInt` on the path is not modelled: it reads leading digits, so `"3abc"` addresses row 3 and `"0x1F"` row 31, and text with no leading digits gives `NaN`.
- Concurrency is not modelled. This includes two creates racing for the same ports and the Mutex around the channel table. Operations are sequential.
- Errors thrown by the container runtime inside a handler become `Rejected(message)`, with the state as far as the handler got. Express's error response is not modelled.
- The `/vscode` proxy route and the WebSocket/node-pty terminal bridge (server/src/index.ts:34-65) are not modelled. They are network plumbing.
- The login handler (server/src/index.ts:228-240) is not modelled. It signs with a configured secret while `contextUser` verifies with a fixed one; verification is an arbitrary function here.
- The JavaScript cases of `containerRoutes[id]` that the model does not capture:
  - inherited object keys such as `constructor`;
  - regular-expression metacharacters in the id inside the `pathRewrite` pattern.

  The memo is a plain map and the rewrite a literal prefix.
- A `token` query parameter given several times (an array) is not modelled; the query token is a string.
- `path.resolve('./tools')` depends on the working directory; it is the `toolsDir` parameter.
- Workspaces.Controller.List: models the intended filter on the migration's nullable `userId` column (the `owner` field), not the query as written. The handler at server/src/index.ts:68-70 filters on `user: { id }`, but the `Workspace` entity (server/src/entities/Workspace.ts) declares neither a `user` relation nor a `userId` column. TypeORM most likely rejects such a where key with an error, so as written `GET /workspaces` would fail for every logged-in user rather than return a filtered list. That rejection is library behaviour outside the model.
- The following are not modelled; they are I/O, process control or stubs:
  - `Config::from_file`/`save_to_file`, TOML parsing and clap's argument parsing. The loaded config is a parameter.
  - The stdout/stderr pumps;
  - `SIGWINCH` on window change;
  - the stubbed `data()` handler;
  - `channel_eof`;
  - dropping a replaced child;
  - the `close`/`eof` messages sent to the client after `exec`.
- `String::from_utf8_lossy` on exec data is not modelled; the command is a string.
- `Path::exists` reporting false for unreadable parents is not modelled; such a path is simply absent from the file-system map.
- Windows path prefixes in `PathBuf::join` are not modelled. Only Unix paths are.
- packages/ssh-server/src/server.rs, packages/sshd and ssh.rs are not part of this model.
- SshAuth.TrimStart: its own contract states only the length bound and the first character, because the solver handles the slice form poorly inside a function contract. SshAuth.TrimStartDropsLeadingRun states that the result is the suffix after a leading whitespace run.
- SshAuth.TrimEnd: its own contract states the length bound and the first and last characters, for the same reason. SshAuth.TrimEndDropsTrailingRun states that the result is the prefix before a trailing whitespace run.
- SshAuth.Trim: its own contract states only that the result neither starts nor ends with whitespace, for the same reason. SshAuth.TrimKeepsMiddle states that the result is the input's middle slice, unchanged.
- Identity.SkipSpaces: its own contract states only the length bounds and the first character, for the same reason. Identity.SkipSpacesDropsLeadingRun states the full suffix property.

## Findings

| source | as written | input that shows it | evidently intended | confidence | as-written member | corrected member |
|---|---|---|---|---|---|---|
| server/src/index.ts:143-149 | the created row is saved without its user, while `GET /workspaces` is meant to return only rows whose user is the caller; the list query as written (index.ts:68-70) names a `user` relation the entity does not declare, so it most likely rejects instead of listing | any logged-in user creates a workspace, then lists | the row records the creating user, who then sees it; this also needs the `user` relation (the `userId` column) declared on the `Workspace` entity | high, not executed | Workspaces.CreatedWorkspaceIsNeverListed | Workspaces.OwnedCreationIsListed |
| server/src/index.ts:196 | restart calls the runtime but never re-inspects, so the stored status keeps its old value | a workspace stored as "exited" is restarted and the runtime reports "running" | store the inspected status, as start and stop do | high, not executed | Workspaces.RestartLeavesStatusStale | Workspaces.RefreshedRestartRecordsStatus |
| server/src/index.ts:126 | the SSH port is allocated and stored, but only 8080/tcp gets a `HostPort` binding | any create: 22/tcp is exposed with no host port | bind 22/tcp to the allocated SSH port | medium, not executed | Workspaces.SshPortNotPublished | Workspaces.PublishingSpecPublishesBoth |
