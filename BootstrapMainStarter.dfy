/**
 * The launcher: finding the launcher jar in `<maven home>/boot` and starting
 * the build tool's entry point with two system properties set.
 */
module BootstrapMainStarter {

  import opened Wrappers
  import JavaFile

  const PLEXUS_JAR_PREFIX := "plexus-classworlds-"
  const CLASSWORLDS_JAR_PREFIX := "classworlds-"
  const JAR_SUFFIX := ".jar"
  const PLEXUS_LAUNCHER_CLASS := "org.codehaus.plexus.classworlds.launcher.Launcher"
  const CLASSWORLDS_LAUNCHER_CLASS := "org.codehaus.classworlds.Launcher"
  const MAVEN_HOME_PROPERTY := "maven.home"
  const CLASSWORLDS_CONF_PROPERTY := "classworlds.conf"
  const M2_CONF := "/bin/m2.conf"

  /** The launcher descriptor: the jar to load and the entry-point class inside it. */
  datatype Launcher = Launcher(jar: string, className: string)

  // ---------------------------------------------------------------------------
  // Jar-name patterns
  // ---------------------------------------------------------------------------

  /** The characters a regular-expression `.` does not match without DOTALL. */
  predicate IsLineTerminator(c: char) {
    c == '\n' || c == '\r' || c == '\U{0085}' || c == '\U{2028}' || c == '\U{2029}'
  }

  /** Strings matched by `.*`. */
  predicate DotStar(s: string) {
    forall i :: 0 <= i < |s| ==> !IsLineTerminator(s[i])
  }

  /** `name.matches(prefix + ".*\\.jar")`, with String.matches anchored at both ends. */
  predicate MatchesJar(name: string, prefix: string) {
    |prefix| + |JAR_SUFFIX| <= |name|
    && name[..|prefix|] == prefix
    && name[|name| - |JAR_SUFFIX|..] == JAR_SUFFIX
    && DotStar(name[|prefix|..|name| - |JAR_SUFFIX|])
  }

  /** Every `prefix + middle + ".jar"` matches, exactly when `.*` accepts the middle (possibly empty). */
  lemma MatchesJarAccepts(prefix: string, middle: string)
    ensures MatchesJar(prefix + middle + JAR_SUFFIX, prefix) <==> DotStar(middle)
  {
    var name := prefix + middle + JAR_SUFFIX;
    assert name[..|prefix|] == prefix;
    assert name[|name| - |JAR_SUFFIX|..] == JAR_SUFFIX;
    assert name[|prefix|..|name| - |JAR_SUFFIX|] == middle;
  }

  /** And nothing else matches: a matching name is the prefix, a middle and ".jar". */
  lemma MatchesJarShape(name: string, prefix: string)
    requires MatchesJar(name, prefix)
    ensures name == prefix + name[|prefix|..|name| - |JAR_SUFFIX|] + JAR_SUFFIX
  {
    var k := |name| - |JAR_SUFFIX|;
    assert name == name[..|prefix|] + name[|prefix|..k] + name[k..];
  }

  /** The two patterns never match the same name: listing order, not pattern order, decides. */
  lemma PatternsDisjoint(name: string)
    ensures !(MatchesJar(name, PLEXUS_JAR_PREFIX) && MatchesJar(name, CLASSWORLDS_JAR_PREFIX))
  {
    if MatchesJar(name, PLEXUS_JAR_PREFIX) {
      assert name[..|CLASSWORLDS_JAR_PREFIX|][0] == name[..|PLEXUS_JAR_PREFIX|][0] == 'p';
    }
  }

  // ---------------------------------------------------------------------------
  // findLauncher
  // ---------------------------------------------------------------------------

  /** The `boot` directory of a Maven home. */
  function BootDirectory(mavenHome: string): string {
    JavaFile.Child(mavenHome, "boot")
  }

  /** The File that listFiles() yields for the entry `name` of the boot directory. */
  function JarFile(mavenHome: string, name: string): string {
    JavaFile.Resolve(BootDirectory(mavenHome), name)
  }

  predicate IsLauncherJar(name: string) {
    MatchesJar(name, PLEXUS_JAR_PREFIX) || MatchesJar(name, CLASSWORLDS_JAR_PREFIX)
  }

  /** The descriptor one listed file yields, if its name matches a pattern (the plexus pattern is tried first). */
  function LauncherFor(mavenHome: string, name: string): (r: Option<Launcher>)
    ensures r.Some? <==> IsLauncherJar(name)
  {
    if MatchesJar(name, PLEXUS_JAR_PREFIX) then Some(Launcher(JarFile(mavenHome, name), PLEXUS_LAUNCHER_CLASS))
    else if MatchesJar(name, CLASSWORLDS_JAR_PREFIX) then Some(Launcher(JarFile(mavenHome, name), CLASSWORLDS_LAUNCHER_CLASS))
    else None
  }

  function NotFoundMessage(mavenHome: string): string {
    "Could not locate the Maven launcher JAR in Maven distribution '" + mavenHome + "'."
  }

  /**
   * findLauncher over the names listFiles() returns for `<mavenHome>/boot`,
   * in listing order; a Failure is the RuntimeException and its message.
   */
  function FindLauncher(mavenHome: string, names: seq<string>): (r: Result<Launcher, string>)
    ensures r.Failure? <==> forall j :: 0 <= j < |names| ==> !IsLauncherJar(names[j])
    ensures r.Failure? ==> r.error == NotFoundMessage(mavenHome)
  {
    if names == [] then Failure(NotFoundMessage(mavenHome))
    else match LauncherFor(mavenHome, names[0])
      case Some(launcher) => Success(launcher)
      case None => FindLauncher(mavenHome, names[1..])
  }

  /** The first matching file, in listing order, is the launcher; its class follows from its pattern. */
  lemma {:induction false} FindLauncherReturnsFirstMatch(mavenHome: string, names: seq<string>, i: nat)
    requires i < |names| && IsLauncherJar(names[i])
    requires forall j :: 0 <= j < i ==> !IsLauncherJar(names[j])
    ensures FindLauncher(mavenHome, names).Success?
    ensures FindLauncher(mavenHome, names).value.jar == JarFile(mavenHome, names[i])
    ensures FindLauncher(mavenHome, names).value.className
            == if MatchesJar(names[i], PLEXUS_JAR_PREFIX) then PLEXUS_LAUNCHER_CLASS else CLASSWORLDS_LAUNCHER_CLASS
  {
    if i > 0 {
      assert !IsLauncherJar(names[0]);
      FindLauncherReturnsFirstMatch(mavenHome, names[1..], i - 1);
    }
  }

  /** A success always comes from some listed file that matches a pattern. */
  lemma {:induction false} FindLauncherOnlyFromMatch(mavenHome: string, names: seq<string>)
    requires FindLauncher(mavenHome, names).Success?
    ensures exists i :: 0 <= i < |names| && LauncherFor(mavenHome, names[i]) == Some(FindLauncher(mavenHome, names).value)
  {
    if LauncherFor(mavenHome, names[0]).None? {
      FindLauncherOnlyFromMatch(mavenHome, names[1..]);
      var i :| 0 <= i < |names[1..]| && LauncherFor(mavenHome, names[1..][i]) == Some(FindLauncher(mavenHome, names).value);
      assert names[1..][i] == names[i + 1];
    }
  }

  /** Files listed after a matching one are never examined. */
  lemma {:induction false} FindLauncherIgnoresLaterFiles(mavenHome: string, names: seq<string>, i: nat, later: seq<string>)
    requires i < |names| && IsLauncherJar(names[i])
    ensures FindLauncher(mavenHome, names[..i + 1] + later) == FindLauncher(mavenHome, names[..i + 1])
  {
    var a, b := names[..i + 1] + later, names[..i + 1];
    assert a[0] == b[0] == names[0];
    if !IsLauncherJar(names[0]) {
      assert i > 0;
      assert a[1..] == names[1..][..i] + later;
      assert b[1..] == names[1..][..i];
      FindLauncherIgnoresLaterFiles(mavenHome, names[1..], i - 1, later);
    }
  }

  /** A classworlds jar listed before a plexus-classworlds jar wins. */
  lemma ListingOrderDecides(mavenHome: string)
    ensures FindLauncher(mavenHome, ["classworlds-1.1.jar", "plexus-classworlds-2.5.2.jar"])
            == Success(Launcher(JarFile(mavenHome, "classworlds-1.1.jar"), CLASSWORLDS_LAUNCHER_CLASS))
  {
    MatchesJarAccepts(CLASSWORLDS_JAR_PREFIX, "1.1");
    assert "classworlds-1.1.jar" == CLASSWORLDS_JAR_PREFIX + "1.1" + JAR_SUFFIX;
    PatternsDisjoint("classworlds-1.1.jar");
  }

  /** A lone plexus-classworlds jar gives the plexus launcher. */
  lemma PlexusJarAlone(mavenHome: string)
    ensures FindLauncher(mavenHome, ["plexus-classworlds-9.9.9.jar"])
            == Success(Launcher(JarFile(mavenHome, "plexus-classworlds-9.9.9.jar"), PLEXUS_LAUNCHER_CLASS))
  {
    MatchesJarAccepts(PLEXUS_JAR_PREFIX, "9.9.9");
    assert "plexus-classworlds-9.9.9.jar" == PLEXUS_JAR_PREFIX + "9.9.9" + JAR_SUFFIX;
  }

  /** A lone classworlds jar gives the classworlds launcher. */
  lemma ClassworldsJarAlone(mavenHome: string)
    ensures FindLauncher(mavenHome, ["classworlds-1.1.jar"])
            == Success(Launcher(JarFile(mavenHome, "classworlds-1.1.jar"), CLASSWORLDS_LAUNCHER_CLASS))
  {
    MatchesJarAccepts(CLASSWORLDS_JAR_PREFIX, "1.1");
    assert "classworlds-1.1.jar" == CLASSWORLDS_JAR_PREFIX + "1.1" + JAR_SUFFIX;
    PatternsDisjoint("classworlds-1.1.jar");
  }

  /** A boot directory holding only other jars has no launcher. */
  lemma NoLauncherJar(mavenHome: string)
    ensures FindLauncher(mavenHome, ["maven-core-3.9.6.jar"]) == Failure(NotFoundMessage(mavenHome))
  {
    MismatchedFirstCharacter("maven-core-3.9.6.jar", PLEXUS_JAR_PREFIX);
    MismatchedFirstCharacter("maven-core-3.9.6.jar", CLASSWORLDS_JAR_PREFIX);
  }

  /** A name that starts with another character than the prefix does not match. */
  lemma MismatchedFirstCharacter(name: string, prefix: string)
    requires name != "" && prefix != "" && name[0] != prefix[0]
    ensures !MatchesJar(name, prefix)
  {
    if |prefix| <= |name| {
      assert name[..|prefix|][0] == name[0];
    }
  }

  /** A name that does not end in ".jar" does not match, whatever the prefix. */
  lemma MismatchedSuffix(name: string, prefix: string)
    requires |name| < |JAR_SUFFIX| || name[|name| - |JAR_SUFFIX|..] != JAR_SUFFIX
    ensures !MatchesJar(name, prefix)
  {
  }

  /** Matching is anchored at both ends: no extra text before the prefix or after ".jar". */
  lemma MatchingIsAnchored()
    ensures !IsLauncherJar("plexus-classworlds-2.5.2.jar.sha1")
    ensures !IsLauncherJar("old-classworlds-1.1.jar")
    ensures IsLauncherJar("plexus-classworlds-.jar")
  {
    var sha := "plexus-classworlds-2.5.2.jar.sha1";
    assert sha[|sha| - |JAR_SUFFIX|..][0] == 's';
    MismatchedSuffix(sha, PLEXUS_JAR_PREFIX);
    MismatchedSuffix(sha, CLASSWORLDS_JAR_PREFIX);
    var prefixed := "old-classworlds-1.1.jar";
    MismatchedFirstCharacter(prefixed, PLEXUS_JAR_PREFIX);
    MismatchedFirstCharacter(prefixed, CLASSWORLDS_JAR_PREFIX);
    MatchesJarAccepts(PLEXUS_JAR_PREFIX, "");
    assert "plexus-classworlds-.jar" == PLEXUS_JAR_PREFIX + "" + JAR_SUFFIX;
  }

  // ---------------------------------------------------------------------------
  // start
  // ---------------------------------------------------------------------------

  /** `file.toURI().toURL()` of an absolute path. */
  datatype Url = FileUrl(path: string)

  /** A thread's context class loader: the application's, or a URLClassLoader over some jars
      whose parent is the system class loader's parent. */
  datatype ClassLoader = ApplicationClassLoader | IsolatedClassLoader(urls: seq<Url>)

  /** The observable steps of `start`, in the order they happen. */
  datatype Event =
    | ContextClassLoaderSet(loader: ClassLoader)
    | LoadClassCalled(name: string)
    | PropertySet(key: string, value: string)
    | MainInvoked(className: string, args: seq<string>)

  datatype StartOutcome =
    | Launched
    | LauncherNotFound(message: string)
    | ClassNotFound(name: string)
    | NoMainMethod(name: string)

  /** The `classworlds.conf` file: `new File(mavenHome, "/bin/m2.conf")`. */
  function ConfFile(mavenHome: string): string {
    JavaFile.Child(mavenHome, M2_CONF)
  }

  /** Despite its leading '/', the child "/bin/m2.conf" is resolved under the Maven home. */
  lemma ConfFileUnderHome(mavenHome: string)
    requires JavaFile.IsNormal(mavenHome) && mavenHome != "" && mavenHome != "/"
    ensures ConfFile(mavenHome) == mavenHome + "/bin/m2.conf"
  {
    assert JavaFile.IsNormal(M2_CONF);
  }

  /** With an absolute "user.dir", both properties `start` sets are absolute paths. */
  lemma LaunchPropertiesAbsolute(userDir: string, mavenHome: string)
    requires userDir != "" && userDir[0] == '/'
    ensures forall e :: e in LaunchPropertyWrites(userDir, mavenHome) ==>
              e.PropertySet? && e.value != "" && e.value[0] == '/'
  {
    var writes := LaunchPropertyWrites(userDir, mavenHome);
    assert writes[0].value == JavaFile.AbsolutePath(userDir, mavenHome);
    assert writes[1].value == JavaFile.AbsolutePath(userDir, ConfFile(mavenHome));
  }

  /** The class loader `start` installs: a URLClassLoader over exactly the chosen jar. */
  function LoaderFor(userDir: string, launcher: Launcher): ClassLoader {
    IsolatedClassLoader([FileUrl(JavaFile.AbsolutePath(userDir, launcher.jar))])
  }

  /** The two system-property writes of `start`, in order. */
  function LaunchPropertyWrites(userDir: string, mavenHome: string): seq<Event> {
    [PropertySet(MAVEN_HOME_PROPERTY, JavaFile.AbsolutePath(userDir, mavenHome)),
     PropertySet(CLASSWORLDS_CONF_PROPERTY, JavaFile.AbsolutePath(userDir, ConfFile(mavenHome)))]
  }

  /** The system properties after both writes. */
  function WithLaunchProperties(properties: map<string, string>, userDir: string, mavenHome: string): map<string, string> {
    properties[MAVEN_HOME_PROPERTY := JavaFile.AbsolutePath(userDir, mavenHome)]
              [CLASSWORLDS_CONF_PROPERTY := JavaFile.AbsolutePath(userDir, ConfFile(mavenHome))]
  }

  /** The steps `start` takes once the launcher is found. */
  function StartTrace(userDir: string, mavenHome: string, launcher: Launcher, args: seq<string>,
                      classLoads: bool, hasMain: bool): seq<Event>
  {
    [ContextClassLoaderSet(LoaderFor(userDir, launcher)), LoadClassCalled(launcher.className)]
    + (if !classLoads then []
       else LaunchPropertyWrites(userDir, mavenHome)
            + (if hasMain then [MainInvoked(launcher.className, args)] else []))
  }

  /** The process-wide state `start` changes: system properties and the thread's context class loader. */
  class Jvm {
    /** The "user.dir" directory relative paths are resolved against. */
    const userDir: string
    var properties: map<string, string>
    var contextClassLoader: ClassLoader
    var trace: seq<Event>

    constructor (userDir: string, properties: map<string, string>)
      ensures this.userDir == userDir && this.properties == properties
      ensures contextClassLoader == ApplicationClassLoader && trace == []
    {
      this.userDir := userDir;
      this.properties := properties;
      contextClassLoader := ApplicationClassLoader;
      trace := [];
    }

    /**
     * start(args, mavenHome): `bootListing` is what listFiles() returns for the
     * boot directory; `classLoads` and `hasMain` say whether the chosen jar
     * defines the launcher class and whether that class has main(String[]).
     */
    method Start(args: seq<string>, mavenHome: string, bootListing: seq<string>, classLoads: bool, hasMain: bool)
      returns (outcome: StartOutcome)
      modifies this
      ensures FindLauncher(mavenHome, bootListing).Failure? ==>
                outcome == LauncherNotFound(NotFoundMessage(mavenHome)) && unchanged(this)
      ensures FindLauncher(mavenHome, bootListing).Success? ==>
                var launcher := FindLauncher(mavenHome, bootListing).value;
                && contextClassLoader == LoaderFor(userDir, launcher)
                && outcome == (if !classLoads then ClassNotFound(launcher.className)
                               else if !hasMain then NoMainMethod(launcher.className)
                               else Launched)
                && properties == (if classLoads then WithLaunchProperties(old(properties), userDir, mavenHome)
                                  else old(properties))
                && trace == old(trace) + StartTrace(userDir, mavenHome, launcher, args, classLoads, hasMain)
    {
      var found := FindLauncher(mavenHome, bootListing);
      if found.Failure? {
        return LauncherNotFound(found.error);
      }
      outcome := Launch(found.value, args, mavenHome, classLoads, hasMain);
    }

    /** The steps of `start` once findLauncher has returned `launcher`. */
    method Launch(launcher: Launcher, args: seq<string>, mavenHome: string, classLoads: bool, hasMain: bool)
      returns (outcome: StartOutcome)
      modifies this
      ensures contextClassLoader == LoaderFor(userDir, launcher)
      ensures outcome == (if !classLoads then ClassNotFound(launcher.className)
                          else if !hasMain then NoMainMethod(launcher.className)
                          else Launched)
      ensures properties == (if classLoads then WithLaunchProperties(old(properties), userDir, mavenHome)
                             else old(properties))
      ensures trace == old(trace) + StartTrace(userDir, mavenHome, launcher, args, classLoads, hasMain)
    {
      var loader := LoaderFor(userDir, launcher);
      ghost var before := trace;
      contextClassLoader := loader;
      trace := trace + [ContextClassLoaderSet(loader), LoadClassCalled(launcher.className)];
      if !classLoads {
        return ClassNotFound(launcher.className);
      }
      var home := JavaFile.AbsolutePath(userDir, mavenHome);
      var conf := JavaFile.AbsolutePath(userDir, ConfFile(mavenHome));
      SetProperty(MAVEN_HOME_PROPERTY, home);
      SetProperty(CLASSWORLDS_CONF_PROPERTY, conf);
      ghost var loaded := [ContextClassLoaderSet(loader), LoadClassCalled(launcher.className)] + LaunchPropertyWrites(userDir, mavenHome);
      assert trace == before + loaded;
      if !hasMain {
        return NoMainMethod(launcher.className);
      }
      trace := trace + [MainInvoked(launcher.className, args)];
      assert trace == before + (loaded + [MainInvoked(launcher.className, args)]);
      outcome := Launched;
    }

    /** System.setProperty. */
    method SetProperty(key: string, value: string)
      modifies this
      ensures properties == old(properties)[key := value]
      ensures trace == old(trace) + [PropertySet(key, value)]
      ensures contextClassLoader == old(contextClassLoader)
    {
      properties := properties[key := value];
      trace := trace + [PropertySet(key, value)];
    }
  }
}
