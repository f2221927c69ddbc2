/** Authentication of the SSH daemon (packages/ssh-server/src/auth.rs):
    dispatch between public-key and password checks, the demo password
    check, and the scan of the user's `authorized_keys` file (the format of
    the AUTHORIZED_KEYS FILE FORMAT section of sshd(8)). Keys are compared
    by their SHA-256 fingerprint (FIPS 180-4) printed as unpadded Base64
    (section 4 of RFC 4648). Base64, key parsing and hashing are library
    functions the model does not see; they are passed in as a `KeyLibrary`.
    The file system is a map from path to file. */
module SshAuth {
  import opened Common
  import opened SshConfig

  newtype byte = x: int | 0 <= x < 256

  /** A parsed public key: its algorithm name and key material. */
  datatype PublicKey = PublicKey(algorithm: string, material: seq<byte>)

  /** The library calls the authenticator makes: standard Base64 decoding,
      `russh_keys::parse_public_key`, `public_key_bytes`, SHA-256, and
      unpadded standard Base64 encoding. */
  datatype KeyLibrary = KeyLibrary(
    decodeBase64: string -> Option<seq<byte>>,
    parsePublicKey: seq<byte> -> Result<PublicKey>,
    publicKeyBytes: PublicKey -> seq<byte>,
    sha256: seq<byte> -> seq<byte>,
    encodeBase64NoPad: seq<byte> -> string)

  datatype FileEntry = TextFile(content: string) | Unreadable(message: string)

  /** Paths of existing files and what reading each of them gives. */
  type FileSystem = map<string, FileEntry>

  const DemoUser := "demo"
  const DemoPassword := "demo123"
  const SupportedKeyTypes: set<string> := {"ssh-rsa", "ssh-ed25519", "ecdsa-sha2-nistp256"}

  // ---------------------------------------------------------------------
  // Text handling of Rust's `str`
  // ---------------------------------------------------------------------

  /** `char::is_whitespace`: the Unicode White_Space property. */
  predicate IsWhitespace(c: char)
  {
    ('\t' <= c <= '\r') || c == ' ' || c == '\U{0085}' || c == '\U{00A0}' || c == '\U{1680}' ||
    ('\U{2000}' <= c <= '\U{200A}') || c == '\U{2028}' || c == '\U{2029}' ||
    c == '\U{202F}' || c == '\U{205F}' || c == '\U{3000}'
  }

  predicate NoWhitespace(s: string)
  {
    forall i :: 0 <= i < |s| ==> !IsWhitespace(s[i])
  }

  function TrimStart(s: string): (r: string)
    ensures |r| <= |s|
    ensures r == [] || !IsWhitespace(r[0])
  {
    if s != [] && IsWhitespace(s[0]) then TrimStart(s[1..]) else s
  }

  function TrimEnd(s: string): (r: string)
    ensures |r| <= |s| && (r != [] ==> r[0] == s[0])
    ensures r == [] || !IsWhitespace(r[|r| - 1])
  {
    if s != [] && IsWhitespace(s[|s| - 1]) then TrimEnd(s[..|s| - 1]) else s
  }

  /** `str::trim`. */
  function Trim(s: string): (r: string)
    ensures r == [] || (!IsWhitespace(r[0]) && !IsWhitespace(r[|r| - 1]))
  {
    TrimEnd(TrimStart(s))
  }

  predicate AllWhitespace(s: string)
  {
    forall i :: 0 <= i < |s| ==> IsWhitespace(s[i])
  }

  /** `trim_start` drops exactly a leading run of whitespace. */
  lemma {:induction false} TrimStartDropsLeadingRun(s: string)
    ensures var r := TrimStart(s); r == s[|s| - |r|..] && AllWhitespace(s[..|s| - |r|])
  {
    if s != [] && IsWhitespace(s[0]) {
      TrimStartDropsLeadingRun(s[1..]);
      var r := TrimStart(s);
      assert s[1..][|s| - 1 - |r|..] == s[|s| - |r|..];
      assert s[..|s| - |r|] == [s[0]] + s[1..][..|s| - 1 - |r|];
    }
  }

  /** `trim_end` drops exactly a trailing run of whitespace. */
  lemma {:induction false} TrimEndDropsTrailingRun(s: string)
    ensures var r := TrimEnd(s); r == s[..|r|] && AllWhitespace(s[|r|..])
  {
    if s != [] && IsWhitespace(s[|s| - 1]) {
      var init := s[..|s| - 1];
      TrimEndDropsTrailingRun(init);
      var r := TrimEnd(s);
      assert init[..|r|] == s[..|r|];
      assert s[|r|..] == init[|r|..] + [s[|s| - 1]];
    }
  }

  /** `trim` keeps the line between its leading and its trailing whitespace
      runs, unchanged. */
  lemma TrimKeepsMiddle(s: string)
    ensures var i := |s| - |TrimStart(s)|; var j := i + |Trim(s)|;
      0 <= i <= j <= |s| && Trim(s) == s[i..j] && AllWhitespace(s[..i]) && AllWhitespace(s[j..])
  {
    TrimStartDropsLeadingRun(s);
    TrimEndDropsTrailingRun(TrimStart(s));
    PrefixOfSuffix(s, TrimStart(s), Trim(s));
  }

  /** A prefix `r` of a suffix `t` of `s` is a slice of `s`, and what follows
      `r` in `t` is what follows that slice in `s`. */
  lemma PrefixOfSuffix(s: string, t: string, r: string)
    requires |t| <= |s| && t == s[|s| - |t|..]
    requires |r| <= |t| && r == t[..|r|]
    ensures var i := |s| - |t|; r == s[i..i + |r|] && t[|r|..] == s[i + |r|..]
  {
  }

  /** Length of the leading run of non-whitespace characters. */
  function WordLength(s: string): (n: nat)
    ensures n <= |s| && NoWhitespace(s[..n])
    ensures n < |s| ==> IsWhitespace(s[n])
  {
    if s == [] || IsWhitespace(s[0]) then 0
    else
      var n := 1 + WordLength(s[1..]);
      assert s[..n] == [s[0]] + s[1..][..n - 1];
      n
  }

  /** `str::split_whitespace`: the non-empty runs of non-whitespace. */
  function SplitWhitespace(s: string): (parts: seq<string>)
    ensures forall i :: 0 <= i < |parts| ==> parts[i] != [] && NoWhitespace(parts[i])
    decreases |s|
  {
    var t := TrimStart(s);
    if t == [] then []
    else
      var n := WordLength(t);
      assert n != 0 by { assert !IsWhitespace(t[0]); }
      var rest := SplitWhitespace(t[n..]);
      var parts := [t[..n]] + rest;
      assert forall i :: 1 <= i < |parts| ==> parts[i] == rest[i - 1];
      parts
  }

  /** Drops one trailing carriage return. */
  function StripCr(line: string): string
  {
    if line != [] && line[|line| - 1] == '\r' then line[..|line| - 1] else line
  }

  /** Index of the first line feed, or the length when there is none. */
  function LineFeedIndex(s: string): (i: nat)
    ensures i <= |s| && (i < |s| ==> s[i] == '\n')
    ensures forall j :: 0 <= j < i ==> s[j] != '\n'
  {
    if s == [] || s[0] == '\n' then 0 else 1 + LineFeedIndex(s[1..])
  }

  /** `str::lines`: split at `\n`, a `\r` before the `\n` dropped, no empty
      line after a final `\n`. */
  function Lines(s: string): seq<string>
    decreases |s|
  {
    if s == [] then []
    else
      var i := LineFeedIndex(s);
      if i == |s| then [s] else [StripCr(s[..i])] + Lines(s[i + 1..])
  }

  /** A line without a line feed, then a line feed, then the rest: the line
      comes first and the rest's lines follow. */
  lemma LinesOfLineThenRest(line: string, rest: string)
    requires forall j :: 0 <= j < |line| ==> line[j] != '\n'
    ensures Lines(line + "\n" + rest) == [StripCr(line)] + Lines(rest)
  {
    var s := line + "\n" + rest;
    LineFeedIndexOfLine(line, rest);
    assert s[..|line|] == line;
    assert s[|line| + 1..] == rest;
  }

  lemma {:induction false} LineFeedIndexOfLine(line: string, rest: string)
    requires forall j :: 0 <= j < |line| ==> line[j] != '\n'
    ensures LineFeedIndex(line + "\n" + rest) == |line|
  {
    if line != [] {
      LineFeedIndexOfLine(line[1..], rest);
      assert (line + "\n" + rest)[1..] == line[1..] + "\n" + rest;
    }
  }

  // ---------------------------------------------------------------------
  // Keys
  // ---------------------------------------------------------------------

  /** `decode_public_key`: Base64-decode the key data, then parse it if the
      key type is one of the three supported ones. */
  function DecodePublicKey(keyType: string, keyData: string, lib: KeyLibrary): (r: Result<PublicKey>)
    ensures r.Ok? <==>
      keyType in SupportedKeyTypes && lib.decodeBase64(keyData).Some? &&
      lib.parsePublicKey(lib.decodeBase64(keyData).value).Ok?
    ensures r.Ok? ==> r == lib.parsePublicKey(lib.decodeBase64(keyData).value)
  {
    match lib.decodeBase64(keyData)
    case None => Err("Invalid Base64 key data")
    case Some(bytes) =>
      if keyType in SupportedKeyTypes then
        match lib.parsePublicKey(bytes)
        case Ok(k) => Ok(k)
        case Err(e) => Err("Failed to parse " + keyType + " key: " + e)
      else Err("Unsupported key type: " + keyType)
  }

  /** `key_fingerprint`: unpadded Base64 of the SHA-256 of the key bytes. */
  function Fingerprint(key: PublicKey, lib: KeyLibrary): string
  {
    lib.encodeBase64NoPad(lib.sha256(lib.publicKeyBytes(key)))
  }

  /** `keys_equal`: the fingerprints agree. */
  predicate KeysEqual(a: PublicKey, b: PublicKey, lib: KeyLibrary)
  {
    Fingerprint(a, lib) == Fingerprint(b, lib)
  }

  /** Comparing by fingerprint is an equivalence, and a key equals itself. */
  lemma KeysEqualIsEquivalence(a: PublicKey, b: PublicKey, c: PublicKey, lib: KeyLibrary)
    ensures KeysEqual(a, a, lib)
    ensures KeysEqual(a, b, lib) <==> KeysEqual(b, a, lib)
    ensures KeysEqual(a, b, lib) && KeysEqual(b, c, lib) ==> KeysEqual(a, c, lib)
  {
  }

  /** The key one line of the file contributes: none for a blank line, a
      comment, a line with fewer than two fields, or a key that does not
      decode; otherwise the decoded key of fields one and two. */
  function LineKey(line: string, lib: KeyLibrary): Option<PublicKey>
  {
    var t := Trim(line);
    if t == [] || t[0] == '#' then None
    else
      var parts := SplitWhitespace(t);
      if |parts| < 2 then None
      else
        match DecodePublicKey(parts[0], parts[1], lib)
        case Ok(k) => Some(k)
        case Err(_) => None
  }

  /** One line authorizes the offered key. */
  predicate LineAccepts(line: string, offered: PublicKey, lib: KeyLibrary)
  {
    LineKey(line, lib).Some? && KeysEqual(offered, LineKey(line, lib).value, lib)
  }

  /** Where the user's keys live: `authorized_keys_dir.join("{user}.pub")`.
      Joining an absolute path replaces the directory; otherwise a separator
      is added unless the directory is empty or already ends in one. */
  function KeyFilePath(dir: string, username: string): string
  {
    var file := username + ".pub";
    if StartsWith(file, "/") then file
    else if dir == [] || dir[|dir| - 1] == '/' then dir + file
    else dir + "/" + file
  }

  /** With the default configuration a plain user name maps to a file in
      /etc/rust-sshd/authorized_keys. */
  lemma DefaultKeyFilePath(username: string)
    requires username == [] || username[0] != '/'
    ensures KeyFilePath(DefaultConfig().authorizedKeysDir, username) ==
      "/etc/rust-sshd/authorized_keys/" + username + ".pub"
  {
    var file := username + ".pub";
    assert file[0] == if username == [] then '.' else username[0];
    assert !StartsWith(file, "/");
  }

  /** A user name that is an absolute path escapes the configured directory. */
  lemma AbsoluteUsernameEscapesDirectory(dir: string, username: string)
    requires StartsWith(username, "/")
    ensures KeyFilePath(dir, username) == username + ".pub"
  {
  }

  /** Some line of the file authorizes the offered key. */
  predicate AnyLineAccepts(lines: seq<string>, offered: PublicKey, lib: KeyLibrary)
  {
    exists i :: 0 <= i < |lines| && LineAccepts(lines[i], offered, lib)
  }

  /** What `authenticate_public_key` answers: no key file means `false`; a
      file that cannot be read is an error; otherwise whether some line
      authorizes the offered key. */
  function PublicKeyVerdict(username: string, offered: PublicKey, config: Config,
                            fs: FileSystem, lib: KeyLibrary): Result<bool>
  {
    var path := KeyFilePath(config.authorizedKeysDir, username);
    if path !in fs then Ok(false)
    else
      match fs[path]
      case Unreadable(m) => Err(m)
      case TextFile(content) =>
        Ok(AnyLineAccepts(Lines(content), offered, lib))
  }

  /** `authenticate_public_key`: no key file means `false`, a file that
      cannot be read is an error, otherwise the scan of its lines decides.
      `examined` counts the lines the scan looked at. */
  method AuthenticatePublicKey(username: string, offered: PublicKey, config: Config,
                               fs: FileSystem, lib: KeyLibrary) returns (r: Result<bool>, ghost examined: nat)
    ensures r == PublicKeyVerdict(username, offered, config, fs, lib)
    ensures r == Ok(true) ==>
      var lines := Lines(fs[KeyFilePath(config.authorizedKeysDir, username)].content);
      0 < examined <= |lines| && LineAccepts(lines[examined - 1], offered, lib) &&
      forall j :: 0 <= j < examined - 1 ==> !LineAccepts(lines[j], offered, lib)
  {
    var path := KeyFilePath(config.authorizedKeysDir, username);
    if path !in fs {
      return Ok(false), 0;
    }
    match fs[path] {
      case Unreadable(m) =>
        return Err(m), 0;
      case TextFile(content) =>
        var found;
        found, examined := ScanLines(Lines(content), offered, lib);
        return Ok(found), examined;
    }
  }

  /** The loop of `authenticate_public_key` over the file's lines: blank
      lines, comments, short lines and keys that do not decode are skipped,
      and the scan returns at the first line whose key has the offered
      fingerprint. */
  method ScanLines(lines: seq<string>, offered: PublicKey, lib: KeyLibrary) returns (found: bool, ghost examined: nat)
    ensures found <==> AnyLineAccepts(lines, offered, lib)
    ensures found ==>
      0 < examined <= |lines| && LineAccepts(lines[examined - 1], offered, lib) &&
      forall j :: 0 <= j < examined - 1 ==> !LineAccepts(lines[j], offered, lib)
  {
    var i := 0;
    while i < |lines|
      invariant 0 <= i <= |lines|
      invariant forall j :: 0 <= j < i ==> !LineAccepts(lines[j], offered, lib)
    {
      // parse the line's key, then compare fingerprints
      if LineAccepts(lines[i], offered, lib) {
        return true, i + 1;
      }
      i := i + 1;
    }
    return false, i;
  }

  /** `authenticate_password`: only user "demo" with password "demo123". */
  function AuthenticatePassword(username: string, password: string): (r: Result<bool>)
    ensures r.Ok?
    ensures r.value <==> username == DemoUser && password == DemoPassword
  {
    if username == DemoUser && password == DemoPassword then Ok(true) else Ok(false)
  }

  /** `authenticate_user`: with a key, only the key is checked (even if a
      password is also given); otherwise the password; with neither, `false`. */
  function AuthenticateUser(username: string, publicKey: Option<PublicKey>, password: Option<string>,
                            config: Config, fs: FileSystem, lib: KeyLibrary): (r: Result<bool>)
    ensures publicKey.Some? ==> r == PublicKeyVerdict(username, publicKey.value, config, fs, lib)
    ensures publicKey.None? && password.Some? ==>
      r == Ok(username == DemoUser && password.value == DemoPassword)
    ensures publicKey.None? && password.None? ==> r == Ok(false)
  {
    if publicKey.Some? then PublicKeyVerdict(username, publicKey.value, config, fs, lib)
    else if password.Some? then AuthenticatePassword(username, password.value)
    else Ok(false)
  }

  /** No key file: the key is refused without error. */
  lemma MissingKeyFileRefuses(username: string, offered: PublicKey, password: Option<string>,
                              config: Config, fs: FileSystem, lib: KeyLibrary)
    requires KeyFilePath(config.authorizedKeysDir, username) !in fs
    ensures AuthenticateUser(username, Some(offered), password, config, fs, lib) == Ok(false)
  {
  }

  /** A line that authorizes nothing (blank, comment, one field, unsupported
      type, bad Base64, unparsable key, other fingerprint) is skipped: putting
      it in front of the rest of the file changes nothing. */
  lemma SkippedLineDoesNotEndScan(line: string, rest: string, offered: PublicKey, lib: KeyLibrary)
    requires forall j :: 0 <= j < |line| ==> line[j] != '\n'
    requires !LineAccepts(StripCr(line), offered, lib)
    ensures AnyLineAccepts(Lines(line + "\n" + rest), offered, lib) <==> AnyLineAccepts(Lines(rest), offered, lib)
  {
    LinesOfLineThenRest(line, rest);
    AnyLineAcceptsCons(StripCr(line), Lines(rest), offered, lib);
  }

  /** Scanning a line and then more lines. */
  lemma AnyLineAcceptsCons(first: string, rest: seq<string>, offered: PublicKey, lib: KeyLibrary)
    ensures AnyLineAccepts([first] + rest, offered, lib) <==>
      LineAccepts(first, offered, lib) || AnyLineAccepts(rest, offered, lib)
  {
    var lines := [first] + rest;
    if LineAccepts(first, offered, lib) {
      assert lines[0] == first;
    }
    if AnyLineAccepts(rest, offered, lib) {
      var i :| 0 <= i < |rest| && LineAccepts(rest[i], offered, lib);
      assert lines[i + 1] == rest[i];
    }
    if AnyLineAccepts(lines, offered, lib) && !LineAccepts(first, offered, lib) {
      var i :| 0 <= i < |lines| && LineAccepts(lines[i], offered, lib);
      assert i != 0 && lines[i] == rest[i - 1];
      assert LineAccepts(rest[i - 1], offered, lib);
    }
  }

  /** Comments and blank lines never authorize a key. */
  lemma CommentOrBlankNeverAccepts(line: string, offered: PublicKey, lib: KeyLibrary)
    requires Trim(line) == [] || Trim(line)[0] == '#'
    ensures !LineAccepts(line, offered, lib)
  {
  }

  /** A key type outside the three supported ones never authorizes a key. */
  lemma UnsupportedTypeNeverAccepts(line: string, offered: PublicKey, lib: KeyLibrary)
    requires |SplitWhitespace(Trim(line))| >= 2
    requires SplitWhitespace(Trim(line))[0] !in SupportedKeyTypes
    ensures !LineAccepts(line, offered, lib)
  {
  }

  /** Splitting a word followed by whitespace and more text. */
  lemma {:induction false} SplitWordThenRest(w: string, sep: string, rest: string)
    requires w != [] && NoWhitespace(w)
    requires sep != [] && forall i :: 0 <= i < |sep| ==> IsWhitespace(sep[i])
    ensures SplitWhitespace(w + sep + rest) == [w] + SplitWhitespace(rest)
  {
    var s := w + sep + rest;
    assert TrimStart(s) == s;
    WordLengthOfWord(w, sep + rest);
    assert s == w + (sep + rest);
    assert s[..|w|] == w;
    assert s[|w|..] == sep + rest;
    TrimStartOfSpaces(sep, rest);
    SplitWhitespaceAfterTrim(sep + rest);
  }

  lemma {:induction false} WordLengthOfWord(w: string, s: string)
    requires NoWhitespace(w)
    requires s == [] || IsWhitespace(s[0])
    ensures WordLength(w + s) == |w|
  {
    if w == [] {
      assert w + s == s;
    } else {
      WordLengthOfWord(w[1..], s);
      assert (w + s)[1..] == w[1..] + s;
    }
  }

  lemma {:induction false} TrimStartOfSpaces(sep: string, rest: string)
    requires forall i :: 0 <= i < |sep| ==> IsWhitespace(sep[i])
    ensures TrimStart(sep + rest) == TrimStart(rest)
  {
    if sep == [] {
      assert sep + rest == rest;
    } else {
      var s := sep + rest;
      assert s[0] == sep[0] && IsWhitespace(s[0]);
      assert s[1..] == sep[1..] + rest;
      TrimStartOfSpaces(sep[1..], rest);
    }
  }

  /** Leading whitespace does not change the fields. */
  lemma SplitWhitespaceAfterTrim(s: string)
    ensures SplitWhitespace(s) == SplitWhitespace(TrimStart(s))
  {
  }

  /** A single word is a single field. */
  lemma SplitSingleWord(w: string)
    requires w != [] && NoWhitespace(w)
    ensures SplitWhitespace(w) == [w]
  {
    WordLengthOfWord(w, []);
    assert w + [] == w;
    assert TrimStart(w) == w;
    assert w[|w|..] == [];
  }

  /** `<type> <base64>` with a supported type, data that decodes and parses,
      and the offered fingerprint authorizes the offered key. */
  lemma WellFormedLineAccepts(keyType: string, keyData: string, offered: PublicKey, lib: KeyLibrary)
    requires keyType in SupportedKeyTypes
    requires keyData != [] && NoWhitespace(keyData)
    requires lib.decodeBase64(keyData).Some?
    requires lib.parsePublicKey(lib.decodeBase64(keyData).value).Ok?
    requires KeysEqual(offered, lib.parsePublicKey(lib.decodeBase64(keyData).value).value, lib)
    ensures LineAccepts(keyType + " " + keyData, offered, lib)
  {
    var line := keyType + " " + keyData;
    SupportedTypeIsWord(keyType);
    assert line[0] == keyType[0];
    assert line[|line| - 1] == keyData[|keyData| - 1];
    TrimOfTrimmedLine(line);
    SplitWordThenRest(keyType, " ", keyData);
    SplitSingleWord(keyData);
    assert SplitWhitespace(Trim(line)) == [keyType, keyData];
  }

  /** The supported key type names are single words. */
  lemma SupportedTypeIsWord(keyType: string)
    requires keyType in SupportedKeyTypes
    ensures keyType != [] && NoWhitespace(keyType)
  {
    assert keyType == "ssh-rsa" || keyType == "ssh-ed25519" || keyType == "ecdsa-sha2-nistp256";
  }

  /** A line that neither starts nor ends with whitespace is its own trim. */
  lemma TrimOfTrimmedLine(line: string)
    requires line != [] && !IsWhitespace(line[0]) && !IsWhitespace(line[|line| - 1])
    ensures Trim(line) == line
  {
    assert TrimStart(line) == line;
  }
}
