# Maven wrapper launcher and settings downloader, in Dafny

This project models two classes of the Maven wrapper.

- `BootstrapMainStarter` finds the launcher jar of a Maven distribution in `<maven home>/boot`. It then starts the launcher class in its own class loader, after setting the `maven.home` and `classworlds.conf` system properties.
- `MavenSettingsDownloader` downloads a file (the Maven distribution) through the proxies and credentials of the user's `~/.m2/settings.xml`. While the copy runs it installs a process-wide `ProxySelector` and `Authenticator` built from those settings. Afterwards it restores the proxy selector, but not the authenticator.

Files:

- `Wrappers.dfy`: `Option` and `Result`.
- `JavaFile.dfy`: the parts of `java.io.File` on a Unix file system that both classes rely on. These are path normalisation, `new File(parent, child)`, `getParentFile()` and `getAbsolutePath()`.
- `BootstrapMainStarter.dfy`:
  - `findLauncher` as a function over the directory listing, with its jar-name patterns.
  - `start` as a method of a `Jvm` object, whose fields are the system properties, the context class loader and the trace of observable steps.
- `SettingsModel.dfy`: the state-free logic of the downloader.
  - The `<proxy>`/`<server>` entries.
  - `toJavaProxy`.
  - The selector's `select`, as a function and as the source's loop.
  - The authenticator's switch, both as written and with the missing `break`s added.
- `SettingsDownloader.dfy`: the downloader as a class.
  - Its memoised fields: the two settings files, the settings, the selector and the authenticator.
  - `getSettings`, which replaces the decrypted lists.
  - `download`, with its copy loop over a 512 KiB array buffer, its quiet `close`, and its `try`/`finally` that saves and restores the default proxy selector.
  - The selector and authenticator objects, which read the settings through their downloader.

Some parts of the world are parameters of the model rather than computed by it:
- the settings builder and the settings decrypter;
- host-name lookup;
- the system properties and the `user.dir` directory;
- `isFile`;
- what a URL stream delivers, and whether opening or closing a stream fails.

A `SettingsBuildingException` is a `None` from the builder. An `UnknownHostException` is a `None` from the lookup. The download's network stream is a `Remote`: its chunks in order, whether the last read throws, and whether `close()` throws.

## Model

| member | source | states |
|---|---|---|
| JavaFile.Collapse | src/main/java/org/apache/maven/wrapper/MavenSettingsDownloader.java:135 | collapsing runs of '/' never lengthens a path, leaves no two adjacent separators, and keeps its first and last characters |
| JavaFile.CollapseDropsDoubledSlash | src/main/java/org/apache/maven/wrapper/MavenSettingsDownloader.java:135 | of a doubled separator anywhere in a path only one survives; with CollapseKeepsSingleSlashes this determines the collapsed path of every input |
| JavaFile.Normalize | src/main/java/org/apache/maven/wrapper/MavenSettingsDownloader.java:135 | the path a `File` keeps is in normal form (no doubled separator, no trailing separator except for "/"); it is the collapsed path, or the collapsed path without its trailing '/', and empty only for the empty path |
| JavaFile.CollapseKeepsSingleSlashes | src/main/java/org/apache/maven/wrapper/MavenSettingsDownloader.java:135 | a path without doubled separators is left unchanged by collapsing |
| JavaFile.NormalizeFixesNormal | src/main/java/org/apache/maven/wrapper/MavenSettingsDownloader.java:135 | normalisation leaves a normal path alone (so it is idempotent, and the literal children the code passes are used as written) |
| JavaFile.Child | src/main/java/org/apache/maven/wrapper/BootstrapMainStarter.java:50 | `new File(parent, child)` under an ordinary parent is the parent, one separator and the child, even when the child starts with '/' |
| JavaFile.ChildUnder | src/main/java/org/apache/maven/wrapper/MavenSettingsDownloader.java:135 | a name without '/' under an ordinary directory is the directory, one separator and the name, and the result is again in normal form |
| JavaFile.LastSlash | src/main/java/org/apache/maven/wrapper/MavenSettingsDownloader.java:83 | the index found holds the last separator of the path, or is -1 when there is none |
| JavaFile.Parent | src/main/java/org/apache/maven/wrapper/MavenSettingsDownloader.java:83 | `getParentFile()` is null exactly for "/" and for a path without a separator; otherwise it is the text before the last separator, or "/" when the only separator is the leading one |
| JavaFile.ParentOfChild | src/main/java/org/apache/maven/wrapper/MavenSettingsDownloader.java:83 | the parent of a name placed under an ordinary directory is that directory again |
| JavaFile.AbsolutePath | src/main/java/org/apache/maven/wrapper/BootstrapMainStarter.java:49-50 | an absolute path is its own absolute path; the empty path gives "user.dir"; a non-empty relative path gives "user.dir", one '/' and the path (just "/" and the path when "user.dir" is "/"); and the result is absolute whenever "user.dir" is |
| BootstrapMainStarter.MatchesJarAccepts | src/main/java/org/apache/maven/wrapper/BootstrapMainStarter.java:60-63 | prefix + middle + ".jar" matches the pattern exactly when `.*` accepts the middle (any text without a line terminator, the empty text included) |
| BootstrapMainStarter.MatchesJarShape | src/main/java/org/apache/maven/wrapper/BootstrapMainStarter.java:60-63 | conversely, every matching name is the prefix, a middle and ".jar" (the match is anchored at both ends) |
| BootstrapMainStarter.PatternsDisjoint | src/main/java/org/apache/maven/wrapper/BootstrapMainStarter.java:60-64 | no file name matches both the plexus-classworlds and the classworlds pattern |
| BootstrapMainStarter.MatchingIsAnchored | src/main/java/org/apache/maven/wrapper/BootstrapMainStarter.java:60-64 | a `.jar.sha1` file and a name with text before the prefix are not launcher jars; `plexus-classworlds-.jar` is |
| BootstrapMainStarter.LauncherFor | src/main/java/org/apache/maven/wrapper/BootstrapMainStarter.java:60-65 | a listed file yields a launcher exactly when its name matches one of the two patterns |
| BootstrapMainStarter.FindLauncher | src/main/java/org/apache/maven/wrapper/BootstrapMainStarter.java:58-68 | findLauncher fails exactly when no listed name matches, and then with the "Could not locate the Maven launcher JAR" message naming the Maven home |
| BootstrapMainStarter.FindLauncherReturnsFirstMatch | src/main/java/org/apache/maven/wrapper/BootstrapMainStarter.java:59-65 | the first matching file in listing order is the launcher jar, and its class is the plexus launcher when its name matches the plexus pattern, the classworlds launcher otherwise |
| BootstrapMainStarter.FindLauncherOnlyFromMatch | src/main/java/org/apache/maven/wrapper/BootstrapMainStarter.java:59-65 | every launcher found comes from some listed file that matches |
| BootstrapMainStarter.FindLauncherIgnoresLaterFiles | src/main/java/org/apache/maven/wrapper/BootstrapMainStarter.java:59-66 | files listed after a matching file do not change the result |
| BootstrapMainStarter.ListingOrderDecides | src/main/java/org/apache/maven/wrapper/BootstrapMainStarter.java:59-66 | a classworlds jar listed before a plexus-classworlds jar is chosen: listing order, not pattern order, decides |
| BootstrapMainStarter.PlexusJarAlone | src/main/java/org/apache/maven/wrapper/BootstrapMainStarter.java:59-61 | a lone plexus-classworlds jar gives the plexus launcher class |
| BootstrapMainStarter.ClassworldsJarAlone | src/main/java/org/apache/maven/wrapper/BootstrapMainStarter.java:59-64 | a lone classworlds jar gives the classworlds launcher class |
| BootstrapMainStarter.NoLauncherJar | src/main/java/org/apache/maven/wrapper/BootstrapMainStarter.java:59-67 | a boot directory holding only other jars fails with the "Could not locate" message |
| BootstrapMainStarter.MismatchedFirstCharacter | src/main/java/org/apache/maven/wrapper/BootstrapMainStarter.java:60-63 | a name whose first character differs from the prefix's does not match (the match is anchored at the start) |
| BootstrapMainStarter.MismatchedSuffix | src/main/java/org/apache/maven/wrapper/BootstrapMainStarter.java:60-63 | a name not ending in ".jar" does not match (the match is anchored at the end) |
| BootstrapMainStarter.ConfFileUnderHome | src/main/java/org/apache/maven/wrapper/BootstrapMainStarter.java:50 | the `classworlds.conf` file is `<maven home>/bin/m2.conf` despite the child's leading '/' |
| BootstrapMainStarter.Jvm.Start | src/main/java/org/apache/maven/wrapper/BootstrapMainStarter.java:41-56 | without a launcher, start throws before changing anything; otherwise it does what Launch states for the launcher findLauncher returns |
| BootstrapMainStarter.Jvm.Launch | src/main/java/org/apache/maven/wrapper/BootstrapMainStarter.java:43-55 | it installs a class loader over exactly the chosen jar, then asks it for the launcher class. Only if that class loads does it set `maven.home` and then `classworlds.conf` to the `getAbsolutePath()` of the home and of `<home>/bin/m2.conf`, and last it invokes main with the arguments. A class that does not load leaves the properties untouched. |
| BootstrapMainStarter.LaunchPropertiesAbsolute | src/main/java/org/apache/maven/wrapper/BootstrapMainStarter.java:49-50 | with an absolute "user.dir", both properties start sets hold absolute paths |
| BootstrapMainStarter.Jvm.SetProperty | src/main/java/org/apache/maven/wrapper/BootstrapMainStarter.java:49-50 | a property write changes that one key, records it, and leaves the class loader alone |
| SettingsModel.ProxyTypeValueOf | src/main/java/org/apache/maven/wrapper/MavenSettingsDownloader.java:269 | `Proxy.Type.valueOf` succeeds exactly for the three exact upper-case names, yields the type of that name, throws NullPointerException for null and IllegalArgumentException for any other name |
| SettingsModel.ProxyTypeNamesRoundTrip | src/main/java/org/apache/maven/wrapper/MavenSettingsDownloader.java:269 | every proxy type is recovered from its name |
| SettingsModel.ToJavaProxy | src/main/java/org/apache/maven/wrapper/MavenSettingsDownloader.java:267-272 | conversion succeeds exactly for protocol "HTTP" or "SOCKS", a resolvable host and a port in 0..65535, with that type, address and port. The checked UnknownHostException arises exactly when the type is valid and the host does not resolve. Every other failure is NullPointerException for a null protocol and IllegalArgumentException otherwise: an unknown name, "DIRECT", or a port out of range. |
| SettingsModel.Select | src/main/java/org/apache/maven/wrapper/MavenSettingsDownloader.java:228-249 | when the settings cannot be built, select returns the empty list |
| SettingsModel.MatchingProxies | src/main/java/org/apache/maven/wrapper/MavenSettingsDownloader.java:232-238 | the proxies considered are exactly those whose protocol equals the URI scheme |
| SettingsModel.ConvertAll | src/main/java/org/apache/maven/wrapper/MavenSettingsDownloader.java:236 | converting a list succeeds exactly when each entry converts, position by position |
| SettingsModel.SelectFromFilters | src/main/java/org/apache/maven/wrapper/MavenSettingsDownloader.java:228-249 | when every matching proxy converts, select returns their conversions, in settings order |
| SettingsModel.SelectFromStopsAtFailure | src/main/java/org/apache/maven/wrapper/MavenSettingsDownloader.java:230-249 | the first matching proxy that fails decides. An unknown host returns the proxies already added; any other error escapes select. Later entries are never looked at. |
| SettingsModel.OnlyUpperCaseSchemesYieldProxies | src/main/java/org/apache/maven/wrapper/MavenSettingsDownloader.java:234-236 | for every scheme other than "HTTP" and "SOCKS", select yields an empty list or throws |
| SettingsModel.LowerCaseProtocolRaises | src/main/java/org/apache/maven/wrapper/MavenSettingsDownloader.java:234-236 | a proxy with protocol "http" asked for by an "http" URI makes select throw IllegalArgumentException |
| SettingsModel.UpperAscii | src/main/java/org/apache/maven/wrapper/MavenSettingsDownloader.java:269 | upper-casing keeps the length and raises exactly the letters a..z |
| SettingsModel.ToJavaProxyIntended | src/main/java/org/apache/maven/wrapper/MavenSettingsDownloader.java:269 | the intended conversion succeeds exactly when the upper-cased protocol is HTTP or SOCKS, the host resolves and the port is in range |
| SettingsModel.IntendedConvertsLowerCase | src/main/java/org/apache/maven/wrapper/MavenSettingsDownloader.java:234-236 | with the intended conversion, "http" and "socks" entries become HTTP and SOCKS proxies |
| SettingsModel.IntendedSelectsLowerCase | src/main/java/org/apache/maven/wrapper/MavenSettingsDownloader.java:232-247 | the select loop with the intended conversion returns the "http" entry as an HTTP proxy, for the same settings and URI on which select as written throws |
| SettingsModel.IntendedAgreesOnUpperCaseProxy | src/main/java/org/apache/maven/wrapper/MavenSettingsDownloader.java:269 | a protocol that is upper-case already is converted by the intended conversion exactly as by `toJavaProxy` |
| SettingsModel.IntendedAgreesOnUpperCase | src/main/java/org/apache/maven/wrapper/MavenSettingsDownloader.java:232-247 | when every protocol is already upper-case, the intended select loop returns exactly what select as written returns |
| SettingsModel.CollectProxies | src/main/java/org/apache/maven/wrapper/MavenSettingsDownloader.java:228-249 | the loop of select computes the select outcome above |
| SettingsModel.CredentialsOf | src/main/java/org/apache/maven/wrapper/MavenSettingsDownloader.java:298-301 | credentials exist exactly when both user name and password are non-null, and carry them |
| SettingsModel.FirstMatchingProxy | src/main/java/org/apache/maven/wrapper/MavenSettingsDownloader.java:292-297 | the index found is of the first proxy matching protocol, host and port, or the list's length if none does |
| SettingsModel.FirstMatchingServer | src/main/java/org/apache/maven/wrapper/MavenSettingsDownloader.java:314-316 | the index found is of the first server with the id, or the list's length if none has it |
| SettingsModel.FirstProxyMatchDecides | src/main/java/org/apache/maven/wrapper/MavenSettingsDownloader.java:292-305 | the first matching proxy decides the credentials, even when it lacks them and a later match has them |
| SettingsModel.FirstServerMatchDecides | src/main/java/org/apache/maven/wrapper/MavenSettingsDownloader.java:314-325 | the first server with the id decides the credentials |
| SettingsModel.ScanProxies | src/main/java/org/apache/maven/wrapper/MavenSettingsDownloader.java:292-306 | the proxy loop with its `break` yields the first match's credentials |
| SettingsModel.ScanServers | src/main/java/org/apache/maven/wrapper/MavenSettingsDownloader.java:314-326 | the server loop with its `break` yields the first match's credentials |
| SettingsModel.AuthenticateAsWritten | src/main/java/org/apache/maven/wrapper/MavenSettingsDownloader.java:282-339 | getPasswordAuthentication returns only when getSettings fails (for PROXY, or for SERVER with `maven-server-id` set), and then returns null. In every other case it throws AssertionError for the requestor type. |
| SettingsModel.Authenticate | src/main/java/org/apache/maven/wrapper/MavenSettingsDownloader.java:288-331 | with a `break` after each case, the call always returns. A proxy challenge gets the first matching proxy's credentials; a server challenge gets the credentials of the server named by `maven-server-id`, or null. |
| SettingsModel.FallThroughLosesCredentials | src/main/java/org/apache/maven/wrapper/MavenSettingsDownloader.java:290-330 | a proxy challenge whose matching entry has user and password throws as written, and is answered with them once corrected |
| SettingsModel.AsWrittenAgreesOnlyWhenItReturns | src/main/java/org/apache/maven/wrapper/MavenSettingsDownloader.java:288-338 | wherever the switch as written returns, it agrees with the corrected one; wherever they differ, it is the one that throws |
| SettingsDownloader.SettingsPathsUnderHome | src/main/java/org/apache/maven/wrapper/MavenSettingsDownloader.java:131-151 | for an ordinary `user.home`, the two files are `<home>/.m2/settings.xml` and `<home>/.m2/settings-security.xml` |
| SettingsDownloader.SettingsDirectoryUnderHome | src/main/java/org/apache/maven/wrapper/MavenSettingsDownloader.java:135 | for an ordinary `user.home`, the ".m2" directory is `<home>/.m2`, a path in normal form |
| SettingsDownloader.LoadSettings | src/main/java/org/apache/maven/wrapper/MavenSettingsDownloader.java:153-216 | the settings are absent exactly when the build fails. When the security file is a regular file, both lists are replaced by the decrypter's output for the built lists; otherwise they are the built settings unchanged. |
| SettingsDownloader.FlattenAppend | src/main/java/org/apache/maven/wrapper/MavenSettingsDownloader.java:94 | the bytes of the chunks read so far, plus one more chunk, are the bytes of the longer list |
| SettingsDownloader.Read | src/main/java/org/apache/maven/wrapper/MavenSettingsDownloader.java:94 | a read puts the next chunk at the start of the buffer and reports its length. At the end it returns -1, or throws if the stream fails there. |
| SettingsDownloader.Copy | src/main/java/org/apache/maven/wrapper/MavenSettingsDownloader.java:93-94 | the copy loop writes exactly the bytes the source delivers, in order, and fails exactly when the final read fails |
| SettingsDownloader.CloseQuietly | src/main/java/org/apache/maven/wrapper/MavenSettingsDownloader.java:111-124 | close does nothing for null; otherwise it calls close once, and a failure does not propagate |
| SettingsDownloader.Transfer | src/main/java/org/apache/maven/wrapper/MavenSettingsDownloader.java:90-100 | the try block's outcome, which streams are still open on leaving it, the target's content once both streams opened, and the stream events |
| SettingsDownloader.DownloadClosesWhatItOpens | src/main/java/org/apache/maven/wrapper/MavenSettingsDownloader.java:85-107 | every stream download opens is closed at least once. A completed download opens source then target and closes each exactly once, without failure. |
| SettingsDownloader.CloseFailsAtMostOnce | src/main/java/org/apache/maven/wrapper/MavenSettingsDownloader.java:96-107 | no stream records two failing closes: when `in.close()` or `out.close()` has thrown in the try block, the finally block closes that stream again, and the buffered stream returns quietly |
| SettingsDownloader.MavenSettingsDownloader.constructor | src/main/java/org/apache/maven/wrapper/MavenSettingsDownloader.java:61-69 | a new downloader has every memoised field null, and nothing has been resolved, built or decrypted yet |
| SettingsDownloader.MavenSettingsDownloader.GetUserSettingsFile | src/main/java/org/apache/maven/wrapper/MavenSettingsDownloader.java:131-139 | the getter returns `~/.m2/settings.xml` and keeps it; the path is resolved on the first call only, so over the downloader's lifetime at most once |
| SettingsDownloader.MavenSettingsDownloader.GetSecuritySettingsFile | src/main/java/org/apache/maven/wrapper/MavenSettingsDownloader.java:141-151 | the getter returns `~/.m2/settings-security.xml` and keeps it; the path is resolved on the first call only, so at most once |
| SettingsDownloader.MavenSettingsDownloader.IsActive | src/main/java/org/apache/maven/wrapper/MavenSettingsDownloader.java:126-129 | the downloader is active exactly when the user settings file is a regular file |
| SettingsDownloader.MavenSettingsDownloader.GetSettings | src/main/java/org/apache/maven/wrapper/MavenSettingsDownloader.java:153-216 | getSettings yields the loaded settings and keeps them. The builder runs only when no settings are kept, so a later call returns the kept value without building. The decrypter runs once per successful build, and only when the security file is a regular file. A failed build keeps nothing. The user settings path is resolved by the first build; the security path once the build succeeds. |
| SettingsDownloader.MavenSettingsDownloader.GetProxySelector | src/main/java/org/apache/maven/wrapper/MavenSettingsDownloader.java:218-265 | the selector is created once, bound to this downloader, and returned unchanged afterwards |
| SettingsDownloader.MavenSettingsDownloader.GetAuthenticator | src/main/java/org/apache/maven/wrapper/MavenSettingsDownloader.java:274-345 | the authenticator is created once, bound to this downloader, and returned unchanged afterwards |
| SettingsDownloader.MavenSettingsDownloader.Download | src/main/java/org/apache/maven/wrapper/MavenSettingsDownloader.java:75-109 | an existing target is left alone; a target without a parent throws before anything changes. Otherwise, in whatever way the streams fail: the parent directory is created, the default proxy selector is restored, and the authenticator stays installed. The target holds every byte delivered once both streams opened, and every opened stream is closed. |
| SettingsDownloader.MavenSettingsDownloader.TransferWithSettings | src/main/java/org/apache/maven/wrapper/MavenSettingsDownloader.java:79-107 | the try/finally restores the saved default proxy selector and closes quietly whatever the try block left open |
| SettingsDownloader.SettingsProxySelector.Select | src/main/java/org/apache/maven/wrapper/MavenSettingsDownloader.java:226-250 | select on the installed selector gives the select outcome for the downloader's settings and the URI's scheme. Afterwards the downloader holds those settings. It built them only if none were held before, and decrypted them only on such a build when `settings-security.xml` exists. When settings were already held, the downloader is left unchanged. |
| SettingsDownloader.SettingsAuthenticator.GetPasswordAuthentication | src/main/java/org/apache/maven/wrapper/MavenSettingsDownloader.java:282-339 | the installed authenticator behaves as the switch as written, for the downloader's settings and the `maven-server-id` property. A proxy request, or any request once `maven-server-id` is set, leaves the settings held, built at most once and only if none were held before. A server request without `maven-server-id` leaves the downloader unchanged. |

## Left out

- CloseFailsAtMostOnce: a repeated close is taken to return quietly. This holds for `BufferedInputStream`, which drops its buffer on the first close, and for `BufferedOutputStream` from Java 9 on, whose close is guarded by a closed flag. On older runtimes a repeated `out.close()` flushes again and may throw again; that failure would only be logged.
- Buffering, flushing and write failures of the output stream are not modelled. A `Sink` only opens or fails to open, and closes or fails to close.
- `mkdirs` creates every missing ancestor; the model records only the parent directory.
- The moment of `ProxySelector.getDefault()` relative to `mkdirs` is not modelled; nothing observable separates them.
- Logging is left out because it affects only standard error. This covers `printStackTrace`, the decryption problems written to standard error, and `connectFailed`.
- The settings builder, the decrypter with its `DefaultSecDispatcher`, and host-name lookup are external libraries. They are parameters (oracles) of the model.
  - The `AssertionError` a failing `DefaultPlexusCipher` would raise is not modelled.
  - The decrypter is called with the absolute path of the security file, standing in for the dispatcher's configuration file.
- Settings fields other than the proxy and server lists are not modelled; this code never reads them.
- A null URI scheme in `select` is not modelled: the scheme is a string, so the NullPointerException it would raise is absent.
- A null requesting protocol or host in the authenticator is not modelled either; they are strings.
- Reflection is modelled by two flags of `Start`: whether the class loads, and whether it has `main(String[])`. An exception thrown by `main` itself is not modelled.
- `toURI().toURL()` is a plain `file:` URL of the absolute path. Percent-encoding and the trailing '/' of a directory URL are not modelled.
- A boot directory that `listFiles()` cannot read (null, then a NullPointerException) is not modelled: the listing is a sequence of names.
- The listed names are assumed to contain no '/'.
- Other file-system types (Windows paths, drive prefixes) are not modelled; `JavaFile` follows the Unix file system only.
- Java's `String.toUpperCase` is locale-aware; `SettingsModel.UpperAscii` raises only a..z. It is used only by the intended conversion, which the code does not have.
- Concurrency between threads sharing the default proxy selector and authenticator is not modelled.
- What the source stream delivers (`Remote`: whether it opens, its chunks) does not depend on the proxy selector and authenticator installed just before `openStream()`. The platform consults them there, but the model does not connect the two. So `Download`'s contract cannot show that either of the two findings below makes a download through a proxy fail; each finding is shown on the selector and the authenticator themselves.
- The environment (system properties, which files exist, what the builder and decrypter return) is fixed for a downloader's lifetime. That the memoised values ignore a later change of `user.home` or of `settings.xml` is therefore not shown. The ghost counters `userFileResolutions`, `securityFileResolutions`, `builds` and `decryptions` show instead that each value is computed only when nothing is kept.

## Findings

| source | as written | input that shows it | evidently intended | confidence | as-written member | corrected member |
|---|---|---|---|---|---|---|
| src/main/java/org/apache/maven/wrapper/MavenSettingsDownloader.java:288-330 | neither `case` of the switch ends with `break`, so PROXY falls into SERVER and SERVER into `default`, which throws `AssertionError` | a PROXY challenge for http://proxy1:8080 with one `<proxy>` entry http/proxy1/8080/alice/secret | each case ends after its loop, and its credentials (or null) are returned | high; not executed | SettingsModel.AuthenticateAsWritten (FallThroughLosesCredentials, AsWrittenAgreesOnlyWhenItReturns) | SettingsModel.Authenticate |
| src/main/java/org/apache/maven/wrapper/MavenSettingsDownloader.java:234-236 | a proxy is selected only when its protocol equals the URI scheme, and that same protocol goes to the case-sensitive `Proxy.Type.valueOf`, so every lower-case scheme yields no proxy | a `<proxy>` entry http/proxy1/8080 and a URI with scheme "http": IllegalArgumentException escapes `select` | the protocol is mapped to a proxy type regardless of case ("http" to HTTP, "socks" to SOCKS) | medium; not executed | SettingsModel.OnlyUpperCaseSchemesYieldProxies (LowerCaseProtocolRaises) | SettingsModel.ToJavaProxyIntended (IntendedConvertsLowerCase, IntendedSelectsLowerCase, IntendedAgreesOnUpperCase) |
