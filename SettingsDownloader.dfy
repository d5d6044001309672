/**
 * The settings downloader as an object: its memoised fields, the proxy
 * selector and authenticator it hands to the platform, and `download`, which
 * installs them around a chunked copy and restores the proxy selector.
 */
module SettingsDownloader {

  import opened Wrappers
  import opened SettingsModel
  import JavaFile

  const BUFFER_SIZE := 524288
  const SERVER_ID_SYSTEM_PROPERTY_NAME := "maven-server-id"
  const USER_HOME_PROPERTY := "user.home"

  /** One problem a decryption reports: a message and whether it carries an exception. */
  datatype Problem = Problem(message: Option<string>, hasException: bool)

  datatype DecryptionResult = DecryptionResult(proxies: seq<Proxy>, servers: seq<Server>, problems: seq<Problem>)

  /**
   * What the downloader consults but does not compute: the system properties,
   * the "user.dir" directory, which paths are regular files, the settings
   * builder (None: SettingsBuildingException), the decrypter keyed by the
   * absolute path of the security file, and host-name lookup (None:
   * UnknownHostException).
   */
  datatype Environment = Environment(
    systemProperties: map<string, string>,
    userDir: string,
    isFile: string -> bool,
    buildSettings: string -> Option<Settings>,
    decrypt: (string, seq<Proxy>, seq<Server>) -> DecryptionResult,
    resolve: Option<string> -> Option<IpAddress>)

  /** System.getProperty: None for an unset property. */
  function Property(env: Environment, key: string): Option<string> {
    if key in env.systemProperties then Some(env.systemProperties[key]) else None
  }

  /** `new File(System.getProperty("user.home"), ".m2")`; a null parent leaves the bare child. */
  function SettingsDirectory(env: Environment): string {
    match Property(env, USER_HOME_PROPERTY)
    case None => ".m2"
    case Some(home) => JavaFile.ChildOfString(home, ".m2")
  }

  function UserSettingsPath(env: Environment): string {
    JavaFile.Child(SettingsDirectory(env), "settings.xml")
  }

  function SecuritySettingsPath(env: Environment): string {
    JavaFile.Child(SettingsDirectory(env), "settings-security.xml")
  }

  /** For an ordinary home directory the two files sit in its ".m2" directory. */
  lemma SettingsPathsUnderHome(env: Environment, home: string)
    requires Property(env, USER_HOME_PROPERTY) == Some(home)
    requires JavaFile.IsNormal(home) && home != "" && home != "/"
    ensures UserSettingsPath(env) == home + "/" + ".m2" + "/" + "settings.xml"
    ensures SecuritySettingsPath(env) == home + "/" + ".m2" + "/" + "settings-security.xml"
  {
    var dir := SettingsDirectoryUnderHome(env, home);
    JavaFile.ChildUnder(dir, "settings.xml");
    JavaFile.ChildUnder(dir, "settings-security.xml");
  }

  /** The ".m2" directory of an ordinary home directory, in normal form. */
  lemma SettingsDirectoryUnderHome(env: Environment, home: string) returns (dir: string)
    requires Property(env, USER_HOME_PROPERTY) == Some(home)
    requires JavaFile.IsNormal(home) && home != "" && home != "/"
    ensures dir == home + "/" + ".m2" && SettingsDirectory(env) == dir
    ensures JavaFile.IsNormal(dir) && dir != "" && dir != "/"
  {
    JavaFile.NormalizeFixesNormal(home);
    JavaFile.ChildUnder(home, ".m2");
    dir := home + "/" + ".m2";
  }

  /**
   * What a getSettings() that has to build the settings yields: the built
   * settings, whose proxy and server lists are replaced by the decrypted ones
   * when the security file exists, whatever problems the decryption reports.
   */
  function LoadSettings(env: Environment): (r: Option<Settings>)
    ensures r.None? <==> env.buildSettings(UserSettingsPath(env)).None?
    ensures r.Some? && env.isFile(SecuritySettingsPath(env)) ==>
              var built := env.buildSettings(UserSettingsPath(env)).value;
              var decrypted := env.decrypt(JavaFile.AbsolutePath(env.userDir, SecuritySettingsPath(env)),
                                           built.proxies, built.servers);
              r.value.proxies == decrypted.proxies && r.value.servers == decrypted.servers
    ensures r.Some? && !env.isFile(SecuritySettingsPath(env)) ==> r == env.buildSettings(UserSettingsPath(env))
  {
    match env.buildSettings(UserSettingsPath(env))
    case None => None
    case Some(built) =>
      if env.isFile(SecuritySettingsPath(env)) then
        var decrypted := env.decrypt(JavaFile.AbsolutePath(env.userDir, SecuritySettingsPath(env)),
                                     built.proxies, built.servers);
        Some(Settings(decrypted.proxies, decrypted.servers))
      else Some(built)
  }

  // ---------------------------------------------------------------------------
  // The platform: global proxy selector and authenticator, files, streams
  // ---------------------------------------------------------------------------

  datatype Stream = Source | Target

  /** Stream events in the order they happen; `failed` says whether close() threw. */
  datatype IoEvent = Opened(stream: Stream) | CloseCalled(stream: Stream, failed: bool)

  /** The process-wide state `download` touches. */
  class Platform {
    var defaultProxySelector: object?
    var defaultAuthenticator: object?
    var files: map<string, seq<byte>>
    var directories: set<string>
    var ioTrace: seq<IoEvent>

    constructor (selector: object?, authenticator: object?, files: map<string, seq<byte>>, directories: set<string>)
      ensures defaultProxySelector == selector && defaultAuthenticator == authenticator
      ensures this.files == files && this.directories == directories && ioTrace == []
    {
      defaultProxySelector, defaultAuthenticator := selector, authenticator;
      this.files, this.directories := files, directories;
      ioTrace := [];
    }

    /** File.exists(). */
    predicate Exists(path: string)
      reads this
    {
      path in files || path in directories
    }
  }

  /**
   * What `source.toURL().openStream()` yields: whether it opens, the chunks
   * successive reads deliver, whether the read after the last chunk throws
   * instead of reporting the end, and whether close() throws.
   */
  datatype Remote = Remote(opens: bool, chunks: seq<seq<byte>>, failsAtEnd: bool, closeFails: bool)

  /** What `new FileOutputStream(target)` yields: whether it opens and whether close() throws. */
  datatype Sink = Sink(opens: bool, closeFails: bool)

  /** A read never delivers more than the buffer holds. */
  predicate ChunksFit(remote: Remote) {
    forall i :: 0 <= i < |remote.chunks| ==> |remote.chunks[i]| <= BUFFER_SIZE
  }

  datatype DownloadError = NoParent | OpenFailed | CreateFailed | ReadFailed | SourceCloseFailed | TargetCloseFailed

  datatype DownloadOutcome = Completed | Threw(error: DownloadError)

  /** The concatenation of the chunks, in order. */
  function Flatten(chunks: seq<seq<byte>>): seq<byte> {
    if chunks == [] then [] else chunks[0] + Flatten(chunks[1..])
  }

  lemma {:induction false} FlattenAppend(chunks: seq<seq<byte>>, chunk: seq<byte>)
    ensures Flatten(chunks + [chunk]) == Flatten(chunks) + chunk
  {
    if chunks == [] {
      assert chunks + [chunk] == [chunk];
    } else {
      assert (chunks + [chunk])[1..] == chunks[1..] + [chunk];
      FlattenAppend(chunks[1..], chunk);
    }
  }

  /** `in.read(buf)`: the next chunk copied into the buffer, -1 at the end, or a failure. */
  method Read(remote: Remote, next: nat, buf: array<byte>) returns (r: Result<int, DownloadError>)
    requires ChunksFit(remote) && buf.Length == BUFFER_SIZE && next <= |remote.chunks|
    modifies buf
    ensures next < |remote.chunks| ==> r == Success(|remote.chunks[next]|) && buf[..r.value] == remote.chunks[next]
    ensures next == |remote.chunks| ==> r == if remote.failsAtEnd then Failure(ReadFailed) else Success(-1)
  {
    if next < |remote.chunks| {
      var chunk := remote.chunks[next];
      forall k | 0 <= k < |chunk| {
        buf[k] := chunk[k];
      }
      r := Success(|chunk|);
    } else if remote.failsAtEnd {
      r := Failure(ReadFailed);
    } else {
      r := Success(-1);
    }
  }

  /**
   * The copy loop: read into a buffer of BUFFER_SIZE bytes, write the bytes
   * read, until a negative read. What is written is what was read, in order.
   */
  method Copy(remote: Remote) returns (written: seq<byte>, failed: bool)
    requires ChunksFit(remote)
    ensures written == Flatten(remote.chunks)
    ensures failed == remote.failsAtEnd
  {
    var buf := new byte[BUFFER_SIZE];
    var next := 0;
    written := [];
    var read := Read(remote, next, buf);
    while read.Success? && read.value >= 0
      invariant next <= |remote.chunks|
      invariant written == Flatten(remote.chunks[..next])
      invariant read.Success? && read.value >= 0 ==>
                  next < |remote.chunks| && read.value == |remote.chunks[next]| && buf[..read.value] == remote.chunks[next]
      invariant !(read.Success? && read.value >= 0) ==>
                  next == |remote.chunks| && read == if remote.failsAtEnd then Failure(ReadFailed) else Success(-1)
      decreases |remote.chunks| - next
    {
      FlattenAppend(remote.chunks[..next], remote.chunks[next]);
      assert remote.chunks[..next + 1] == remote.chunks[..next] + [remote.chunks[next]];
      written := written + buf[..read.value];
      next := next + 1;
      read := Read(remote, next, buf);
    }
    assert remote.chunks[..next] == remote.chunks;
    failed := read.Failure?;
  }

  /** The static close(Closeable): nothing for null, and an IOException is swallowed. */
  method CloseQuietly(platform: Platform, open: bool, stream: Stream, fails: bool)
    modifies platform`ioTrace
    ensures platform.ioTrace == old(platform.ioTrace) + if open then [CloseCalled(stream, fails)] else []
  {
    if open {
      platform.ioTrace := platform.ioTrace + [CloseCalled(stream, fails)];
    }
  }

  /** How `download` ends once it has passed the existence and parent checks. */
  function DownloadResult(remote: Remote, sink: Sink): DownloadOutcome {
    if !remote.opens then Threw(OpenFailed)
    else if !sink.opens then Threw(CreateFailed)
    else if remote.failsAtEnd then Threw(ReadFailed)
    else if remote.closeFails then Threw(SourceCloseFailed)
    else if sink.closeFails then Threw(TargetCloseFailed)
    else Completed
  }

  /** The stream events of the try block of `download`: the opens and the closes that run there. */
  function TryIo(remote: Remote, sink: Sink): seq<IoEvent> {
    if !remote.opens then []
    else if !sink.opens then [Opened(Source)]
    else if remote.failsAtEnd then [Opened(Source), Opened(Target)]
    else if remote.closeFails then [Opened(Source), Opened(Target), CloseCalled(Source, true)]
    else [Opened(Source), Opened(Target), CloseCalled(Source, false), CloseCalled(Target, sink.closeFails)]
  }

  /** Whether `in` is still non-null when the finally block runs. */
  predicate SourceLeftOpen(remote: Remote, sink: Sink) {
    remote.opens && (!sink.opens || remote.failsAtEnd || remote.closeFails)
  }

  /** Whether `out` is still non-null when the finally block runs. */
  predicate TargetLeftOpen(remote: Remote, sink: Sink) {
    remote.opens && sink.opens && (remote.failsAtEnd || remote.closeFails || sink.closeFails)
  }

  /** Whether the try block reached `in.close()`. */
  predicate SourceCloseReached(remote: Remote, sink: Sink) {
    remote.opens && sink.opens && !remote.failsAtEnd
  }

  /** Whether the try block reached `out.close()`. */
  predicate TargetCloseReached(remote: Remote, sink: Sink) {
    SourceCloseReached(remote, sink) && !remote.closeFails
  }

  /**
   * All stream events of `download`: the try block's, then a quiet close of
   * each stream left open. A buffered stream whose close has already been
   * called returns quietly when closed again, so a repeated close never fails.
   */
  function DownloadIo(remote: Remote, sink: Sink): seq<IoEvent> {
    TryIo(remote, sink)
    + (if SourceLeftOpen(remote, sink)
       then [CloseCalled(Source, remote.closeFails && !SourceCloseReached(remote, sink))] else [])
    + (if TargetLeftOpen(remote, sink)
       then [CloseCalled(Target, sink.closeFails && !TargetCloseReached(remote, sink))] else [])
  }

  /**
   * The body of the try block from the opening of the streams on: returns how
   * it ends and which of `in` and `out` are still non-null.
   */
  method Transfer(target: string, remote: Remote, sink: Sink, platform: Platform)
    returns (outcome: DownloadOutcome, inOpen: bool, outOpen: bool)
    requires ChunksFit(remote)
    modifies platform`files, platform`ioTrace
    ensures outcome == DownloadResult(remote, sink)
    ensures inOpen == SourceLeftOpen(remote, sink) && outOpen == TargetLeftOpen(remote, sink)
    ensures platform.files == if remote.opens && sink.opens then old(platform.files)[target := Flatten(remote.chunks)]
                              else old(platform.files)
    ensures platform.ioTrace == old(platform.ioTrace) + TryIo(remote, sink)
  {
    inOpen, outOpen := false, false;
    if !remote.opens {
      return Threw(OpenFailed), inOpen, outOpen;
    }
    inOpen := true;
    platform.ioTrace := platform.ioTrace + [Opened(Source)];
    if !sink.opens {
      return Threw(CreateFailed), inOpen, outOpen;
    }
    outOpen := true;
    platform.ioTrace := platform.ioTrace + [Opened(Target)];
    var written, failed := Copy(remote);
    platform.files := platform.files[target := written];
    if failed {
      return Threw(ReadFailed), inOpen, outOpen;
    }
    // The source stream is closed and forgotten, so the finally block will not close it again.
    platform.ioTrace := platform.ioTrace + [CloseCalled(Source, remote.closeFails)];
    if remote.closeFails {
      return Threw(SourceCloseFailed), inOpen, outOpen;
    }
    inOpen := false;
    // The same for the target stream.
    platform.ioTrace := platform.ioTrace + [CloseCalled(Target, sink.closeFails)];
    if sink.closeFails {
      return Threw(TargetCloseFailed), inOpen, outOpen;
    }
    outOpen := false;
    outcome := Completed;
  }

  /** Every stream `download` opens is closed at least once; after a clean copy, exactly once. */
  lemma DownloadClosesWhatItOpens(remote: Remote, sink: Sink, s: Stream)
    ensures Opened(s) in DownloadIo(remote, sink) ==> exists f :: CloseCalled(s, f) in DownloadIo(remote, sink)
    ensures DownloadResult(remote, sink) == Completed ==>
              DownloadIo(remote, sink) == [Opened(Source), Opened(Target), CloseCalled(Source, false), CloseCalled(Target, false)]
  {
    var io := DownloadIo(remote, sink);
    if Opened(s) in io {
      if s == Source {
        assert CloseCalled(Source, true) in io || CloseCalled(Source, false) in io;
      } else {
        assert CloseCalled(Target, true) in io || CloseCalled(Target, false) in io;
      }
    }
  }

  /**
   * A failing close is reported at most once per stream: when the try block's
   * close has thrown, the finally block's second close returns quietly.
   */
  lemma CloseFailsAtMostOnce(remote: Remote, sink: Sink, s: Stream, i: nat, j: nat)
    requires i < j < |DownloadIo(remote, sink)|
    requires DownloadIo(remote, sink)[i] == CloseCalled(s, true)
    ensures DownloadIo(remote, sink)[j] != CloseCalled(s, true)
  {
    var io := DownloadIo(remote, sink);
    if !remote.opens || !sink.opens || !(remote.failsAtEnd || remote.closeFails || sink.closeFails) {
      // No close fails in the try block here, and at most one close runs in the finally block.
    } else if remote.failsAtEnd {
      assert io == [Opened(Source), Opened(Target), CloseCalled(Source, remote.closeFails), CloseCalled(Target, sink.closeFails)];
    } else if remote.closeFails {
      assert io == [Opened(Source), Opened(Target), CloseCalled(Source, true), CloseCalled(Source, false), CloseCalled(Target, sink.closeFails)];
    } else if sink.closeFails {
      assert io == [Opened(Source), Opened(Target), CloseCalled(Source, false), CloseCalled(Target, true), CloseCalled(Target, false)];
    }
  }

  // ---------------------------------------------------------------------------
  // The downloader and the objects it installs
  // ---------------------------------------------------------------------------

  class MavenSettingsDownloader {
    const env: Environment
    var userSettingsFile: Option<string>
    var securitySettingsFile: Option<string>
    var settings: Option<Settings>
    var proxySelector: SettingsProxySelector?
    var authenticator: SettingsAuthenticator?
    /** How often each settings path was resolved, the builder ran and the decrypter ran. */
    ghost var userFileResolutions: nat
    ghost var securityFileResolutions: nat
    ghost var builds: nat
    ghost var decryptions: nat

    /** The memoised paths, once set, are the two settings files, and each is resolved at most once. */
    ghost predicate PathsValid()
      reads this
    {
      && (userSettingsFile.Some? ==> userSettingsFile.value == UserSettingsPath(env))
      && (securitySettingsFile.Some? ==> securitySettingsFile.value == SecuritySettingsPath(env))
      && userFileResolutions == (if userSettingsFile.Some? then 1 else 0)
      && securityFileResolutions == (if securitySettingsFile.Some? then 1 else 0)
    }

    /** Each memoised field, once set, holds what its getter computes. */
    ghost predicate Valid()
      reads this
    {
      && PathsValid()
      && (settings.Some? ==> settings == LoadSettings(env) && userSettingsFile.Some? && securitySettingsFile.Some?)
      && (proxySelector != null ==> proxySelector.owner == this)
      && (authenticator != null ==> authenticator.owner == this)
    }

    constructor (env: Environment)
      ensures Valid() && this.env == env
      ensures userSettingsFile.None? && securitySettingsFile.None? && settings.None?
      ensures proxySelector == null && authenticator == null
      ensures builds == 0 && decryptions == 0
    {
      this.env := env;
      userSettingsFile, securitySettingsFile, settings := None, None, None;
      proxySelector, authenticator := null, null;
      userFileResolutions, securityFileResolutions, builds, decryptions := 0, 0, 0, 0;
    }

    method GetUserSettingsFile() returns (path: string)
      requires PathsValid()
      modifies this`userSettingsFile, this`userFileResolutions
      ensures PathsValid()
      ensures path == UserSettingsPath(env) && userSettingsFile == Some(path)
      ensures userFileResolutions == old(userFileResolutions) + (if old(userSettingsFile).None? then 1 else 0)
    {
      if userSettingsFile.None? {
        userSettingsFile := Some(JavaFile.Child(SettingsDirectory(env), "settings.xml"));
        userFileResolutions := userFileResolutions + 1;
      }
      path := userSettingsFile.value;
    }

    method GetSecuritySettingsFile() returns (path: string)
      requires PathsValid()
      modifies this`securitySettingsFile, this`securityFileResolutions
      ensures PathsValid()
      ensures path == SecuritySettingsPath(env) && securitySettingsFile == Some(path)
      ensures securityFileResolutions == old(securityFileResolutions) + (if old(securitySettingsFile).None? then 1 else 0)
    {
      if securitySettingsFile.None? {
        securitySettingsFile := Some(JavaFile.Child(SettingsDirectory(env), "settings-security.xml"));
        securityFileResolutions := securityFileResolutions + 1;
      }
      path := securitySettingsFile.value;
    }

    /** isActive(): whether the user settings file is a regular file. */
    method IsActive() returns (active: bool)
      requires Valid()
      modifies this`userSettingsFile, this`userFileResolutions
      ensures Valid() && userSettingsFile == Some(UserSettingsPath(env))
      ensures active == env.isFile(UserSettingsPath(env))
    {
      var path := GetUserSettingsFile();
      active := env.isFile(path);
    }

    /**
     * getSettings(): None is a SettingsBuildingException, after which the
     * field stays null and the next call builds again.
     */
    method GetSettings() returns (r: Option<Settings>)
      requires Valid()
      modifies this`userSettingsFile, this`securitySettingsFile, this`settings
      modifies this`userFileResolutions, this`securityFileResolutions, this`builds, this`decryptions
      ensures Valid()
      ensures r == LoadSettings(env) && settings == r
      ensures old(settings).Some? ==> r == old(settings)
      ensures builds == old(builds) + (if old(settings).None? then 1 else 0)
      ensures decryptions == old(decryptions)
                             + (if old(settings).None? && r.Some? && env.isFile(SecuritySettingsPath(env)) then 1 else 0)
      ensures old(settings).Some? ==>
                userSettingsFile == old(userSettingsFile) && securitySettingsFile == old(securitySettingsFile)
      ensures old(settings).None? ==> userSettingsFile == Some(UserSettingsPath(env))
      ensures r.Some? ==> securitySettingsFile == Some(SecuritySettingsPath(env))
      ensures r.None? ==> securitySettingsFile == old(securitySettingsFile)
    {
      if settings.None? {
        var userFile := GetUserSettingsFile();
        var built := env.buildSettings(userFile);
        builds := builds + 1;
        if built.None? {
          return None;
        }
        settings := built;
        var securityFile := GetSecuritySettingsFile();
        if env.isFile(securityFile) {
          var absolute := JavaFile.AbsolutePath(env.userDir, securityFile);
          var decrypted := env.decrypt(absolute, settings.value.proxies, settings.value.servers);
          decryptions := decryptions + 1;
          // The problems are only logged. Each list is cleared, then refilled.
          settings := Some(settings.value.(proxies := []));
          settings := Some(settings.value.(proxies := settings.value.proxies + decrypted.proxies));
          settings := Some(settings.value.(servers := []));
          settings := Some(settings.value.(servers := settings.value.servers + decrypted.servers));
          assert [] + decrypted.proxies == decrypted.proxies && [] + decrypted.servers == decrypted.servers;
          assert settings == Some(Settings(decrypted.proxies, decrypted.servers));
        }
      }
      r := settings;
    }

    method GetProxySelector() returns (selector: SettingsProxySelector)
      requires Valid()
      modifies this`proxySelector
      ensures Valid() && proxySelector == selector && selector.owner == this
      ensures old(proxySelector) != null ==> selector == old(proxySelector)
      ensures old(proxySelector) == null ==> fresh(selector)
    {
      if proxySelector == null {
        proxySelector := new SettingsProxySelector(this);
      }
      selector := proxySelector;
    }

    method GetAuthenticator() returns (auth: SettingsAuthenticator)
      requires Valid()
      modifies this`authenticator
      ensures Valid() && authenticator == auth && auth.owner == this
      ensures old(authenticator) != null ==> auth == old(authenticator)
      ensures old(authenticator) == null ==> fresh(auth)
    {
      if authenticator == null {
        authenticator := new SettingsAuthenticator(this);
      }
      auth := authenticator;
    }

    /**
     * download(source, target): `remote` is what the source URL delivers and
     * `sink` what opening the target for writing does.
     */
    method Download(target: string, remote: Remote, sink: Sink, platform: Platform) returns (outcome: DownloadOutcome)
      requires Valid() && ChunksFit(remote)
      modifies this`proxySelector, this`authenticator, platform
      ensures Valid()
      ensures userSettingsFile == old(userSettingsFile) && securitySettingsFile == old(securitySettingsFile)
      ensures settings == old(settings)
      ensures old(platform.Exists(target)) ==>
                outcome == Completed && unchanged(platform) && unchanged(this)
      ensures !old(platform.Exists(target)) && JavaFile.Parent(target).None? ==>
                outcome == Threw(NoParent) && unchanged(platform) && unchanged(this)
      ensures !old(platform.Exists(target)) && JavaFile.Parent(target).Some? ==>
                && outcome == DownloadResult(remote, sink)
                && platform.defaultProxySelector == old(platform.defaultProxySelector)
                && proxySelector != null && (old(proxySelector) != null ==> proxySelector == old(proxySelector))
                && authenticator != null && (old(authenticator) != null ==> authenticator == old(authenticator))
                && platform.defaultAuthenticator == authenticator
                && platform.directories == old(platform.directories) + {JavaFile.Parent(target).value}
                && platform.files == (if remote.opens && sink.opens then old(platform.files)[target := Flatten(remote.chunks)]
                                      else old(platform.files))
                && platform.ioTrace == old(platform.ioTrace) + DownloadIo(remote, sink)
    {
      if platform.Exists(target) {
        return Completed;
      }
      var parent := JavaFile.Parent(target);
      if parent.None? {
        // target.getParentFile().mkdirs() dereferences null.
        return Threw(NoParent);
      }
      platform.directories := platform.directories + {parent.value};
      outcome := TransferWithSettings(target, remote, sink, platform);
    }

    /**
     * The try and finally blocks of `download`: install the proxy selector and
     * the authenticator, transfer, then restore the proxy selector and close
     * quietly whatever is still open.
     */
    method TransferWithSettings(target: string, remote: Remote, sink: Sink, platform: Platform)
      returns (outcome: DownloadOutcome)
      requires Valid() && ChunksFit(remote)
      modifies this`proxySelector, this`authenticator, platform`defaultProxySelector,
               platform`defaultAuthenticator, platform`files, platform`ioTrace
      ensures Valid()
      ensures outcome == DownloadResult(remote, sink)
      ensures platform.defaultProxySelector == old(platform.defaultProxySelector)
      ensures proxySelector != null && (old(proxySelector) != null ==> proxySelector == old(proxySelector))
      ensures authenticator != null && (old(authenticator) != null ==> authenticator == old(authenticator))
      ensures platform.defaultAuthenticator == authenticator
      ensures platform.files == if remote.opens && sink.opens then old(platform.files)[target := Flatten(remote.chunks)]
                                else old(platform.files)
      ensures platform.ioTrace == old(platform.ioTrace) + DownloadIo(remote, sink)
    {
      var saved := platform.defaultProxySelector;
      // try
      var selector := GetProxySelector();
      platform.defaultProxySelector := selector;
      var auth := GetAuthenticator();
      platform.defaultAuthenticator := auth;
      var inOpen, outOpen;
      outcome, inOpen, outOpen := Transfer(target, remote, sink, platform);
      // finally
      platform.defaultProxySelector := saved;
      CloseQuietly(platform, inOpen, Source, remote.closeFails && !SourceCloseReached(remote, sink));
      CloseQuietly(platform, outOpen, Target, sink.closeFails && !TargetCloseReached(remote, sink));
    }
  }

  /** The proxy selector getProxySelector() creates: it reads its downloader's settings. */
  class SettingsProxySelector {
    const owner: MavenSettingsDownloader

    constructor (owner: MavenSettingsDownloader)
      ensures this.owner == owner
    {
      this.owner := owner;
    }

    /** select(uri) for a URI with the given scheme. */
    method Select(scheme: string) returns (r: SelectOutcome)
      requires owner.Valid()
      modifies owner`userSettingsFile, owner`securitySettingsFile, owner`settings
      modifies owner`userFileResolutions, owner`securityFileResolutions, owner`builds, owner`decryptions
      ensures owner.Valid()
      ensures r == SettingsModel.Select(LoadSettings(owner.env), scheme, owner.env.resolve)
      ensures owner.settings == LoadSettings(owner.env)
      ensures owner.builds == old(owner.builds) + (if old(owner.settings).None? then 1 else 0)
      ensures owner.decryptions == old(owner.decryptions)
                                   + (if old(owner.settings).None? && owner.settings.Some?
                                         && owner.env.isFile(SecuritySettingsPath(owner.env)) then 1 else 0)
      ensures old(owner.settings).Some? ==> unchanged(owner)
    {
      var loaded := owner.GetSettings();
      if loaded.None? {
        // SettingsBuildingException: caught, the empty list is returned.
        return Selected([]);
      }
      r := CollectProxies(loaded.value.proxies, scheme, owner.env.resolve);
    }
  }

  /** The authenticator getAuthenticator() creates. */
  class SettingsAuthenticator {
    const owner: MavenSettingsDownloader

    constructor (owner: MavenSettingsDownloader)
      ensures this.owner == owner
    {
      this.owner := owner;
    }

    /** getPasswordAuthentication(), with the switch's fall-through as written. */
    method GetPasswordAuthentication(request: AuthRequest) returns (outcome: AuthOutcome)
      requires owner.Valid()
      modifies owner`userSettingsFile, owner`securitySettingsFile, owner`settings
      modifies owner`userFileResolutions, owner`securityFileResolutions, owner`builds, owner`decryptions
      ensures owner.Valid()
      ensures outcome == AuthenticateAsWritten(request, LoadSettings(owner.env),
                                               Property(owner.env, SERVER_ID_SYSTEM_PROPERTY_NAME))
      // The settings are consulted for a proxy request, and for any request once a server id is set.
      ensures request.requestorType == PROXY || Property(owner.env, SERVER_ID_SYSTEM_PROPERTY_NAME).Some? ==>
                owner.settings == LoadSettings(owner.env)
                && owner.builds == old(owner.builds) + (if old(owner.settings).None? then 1 else 0)
                && owner.decryptions == old(owner.decryptions)
                                        + (if old(owner.settings).None? && owner.settings.Some?
                                              && owner.env.isFile(SecuritySettingsPath(owner.env)) then 1 else 0)
      ensures old(owner.settings).Some? ==> unchanged(owner)
      ensures request.requestorType != PROXY && Property(owner.env, SERVER_ID_SYSTEM_PROPERTY_NAME).None? ==>
                unchanged(owner)
    {
      var passwordAuthentication: Option<PasswordAuthentication> := None;
      if request.requestorType == PROXY {
        var loaded := owner.GetSettings();
        if loaded.None? {
          return Returned(passwordAuthentication);
        }
        passwordAuthentication := ScanProxies(loaded.value.proxies, request);
      }
      // Past this point the settings were either left alone or built successfully.
      assert request.requestorType == PROXY ==>
               owner.settings == LoadSettings(owner.env) && owner.settings.Some?
               && owner.builds == old(owner.builds) + (if old(owner.settings).None? then 1 else 0);
      assert request.requestorType != PROXY ==> unchanged(owner);
      // case SERVER, also reached from PROXY: no break ends the case above.
      var serverId := Property(owner.env, SERVER_ID_SYSTEM_PROPERTY_NAME);
      if serverId.Some? {
        var loaded := owner.GetSettings();
        if loaded.None? {
          return Returned(passwordAuthentication);
        }
        var found := ScanServers(loaded.value.servers, serverId.value);
        if found.Some? {
          passwordAuthentication := found;
        }
      }
      // default: reached from SERVER as well.
      outcome := ThrewAssertionError(request.requestorType);
    }
  }
}
