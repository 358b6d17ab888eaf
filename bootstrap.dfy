/** Startup: make sure the `luau-format` tool can be run before the window
    opens. Whenever `luau-format` cannot be started from the search path, the
    tool is downloaded again into `$HOME/.luau-format-gui/luau-format`,
    overwriting any earlier copy; the cached file itself is never probed, and
    its path is used for the current session only. Every outside
    answer (the environment variable, the probe launch, the platform, the file
    system and the network) is a field of `Environment`. */
module Bootstrap {
  import opened Wrappers

  newtype byte = x: int | 0 <= x < 256

  /** The bytes of an ASCII string, as its UTF-8 encoding gives them. */
  function Ascii(s: string): (b: seq<byte>)
    requires forall i :: 0 <= i < |s| ==> s[i] as int < 128
    ensures |b| == |s| && forall i :: 0 <= i < |s| ==> b[i] as int == s[i] as int
  {
    seq(|s|, i requires 0 <= i < |s| => s[i] as int as byte)
  }

  /** The tool name tried first, from the search path. */
  const DefaultTool := "luau-format"

  /** The release asset for Windows. */
  const WindowsUrl :=
    "https://github.com/TechHog8984/luau-format/releases/latest/download/luau-format.exe"

  /** The release assets for other platforms: this prefix, then the CPU architecture. */
  const ArchUrlPrefix :=
    "https://github.com/TechHog8984/luau-format/releases/latest/download/luau-format-"

  /** The body the release server sends for an asset that does not exist. */
  const NotFound: seq<byte> := Ascii("Not Found")

  const HomeMissing := "failed to get HOME environment variable"
  const RequestFailedMessage := "failed to make request to github releases"
  const BodyFailedMessage := "failed to get body from github releases request"

  /** The asset to fetch: one fixed file on Windows, one per architecture elsewhere. */
  function DownloadUrl(windows: bool, arch: string): string
  {
    if windows then WindowsUrl else ArchUrlPrefix + arch
  }

  /** Different platforms never share an asset: the URL determines whether the
      target is Windows and, if not, the architecture. */
  lemma DownloadUrlIdentifiesBuild(w1: bool, a1: string, w2: bool, a2: string)
    requires DownloadUrl(w1, a1) == DownloadUrl(w2, a2)
    ensures w1 == w2
    ensures !w1 ==> a1 == a2
  {
    if w1 != w2 {
      WindowsUrlIsNoArchUrl(if w1 then a2 else a1);
    } else if !w1 {
      assert a1 == (ArchUrlPrefix + a1)[|ArchUrlPrefix|..];
      assert a2 == (ArchUrlPrefix + a2)[|ArchUrlPrefix|..];
    }
  }

  /** The Windows asset is no architecture's asset: the two URLs part at the
      character after their common prefix. */
  lemma WindowsUrlIsNoArchUrl(arch: string)
    ensures WindowsUrl != ArchUrlPrefix + arch
  {
    var k := |ArchUrlPrefix| - 1;
    assert WindowsUrl[k] == '.' && (ArchUrlPrefix + arch)[k] == '-';
  }

  /** What `fs::exists` said about the cache directory. */
  datatype Stat = StatFailed | Exists | Missing

  /** What the request for the asset gave: no response, no body, or the body. */
  datatype Fetch = RequestFailed | BodyFailed | Body(bytes: seq<byte>)

  /** The outside answers startup may consult (each only if it is reached). */
  datatype Environment = Environment(
    home: Option<string>,     // the HOME variable
    probeLaunches: bool,      // whether `luau-format` could be started
    windows: bool,            // whether the target is Windows
    arch: string,             // the target's CPU architecture name
    stat: Stat,               // the cache directory check
    createDirOk: bool,        // whether creating the cache directory succeeds
    fetch: Fetch,             // the download
    writeOk: bool)            // whether writing the tool file succeeds

  /** A file written with the downloaded bytes. */
  datatype FileBytes = FileBytes(path: string, contents: seq<byte>)

  /** The outside actions startup attempted: creating the cache directory,
      requesting a URL, writing the tool file. */
  datatype Effects = Effects(createDir: Option<string>, request: Option<string>,
                             write: Option<FileBytes>)

  /** Startup either yields the tool to run or aborts the program with a message. */
  datatype Startup = Ready(toolPath: string) | Abort(message: string)

  const NoEffects := Effects(None, None, None)

  /** Startup has to download: HOME is set and the probe failed. */
  predicate MustDownload(env: Environment)
  {
    env.home.Some? && !env.probeLaunches
  }

  /** The cache directory is there (or was made) before the download. */
  predicate DirReady(env: Environment)
  {
    env.stat != StatFailed && (env.stat == Missing ==> env.createDirOk)
  }

  method Start(env: Environment) returns (startup: Startup, effects: Effects)
    // HOME is read before anything else, even when the probe would succeed.
    ensures env.home.None? ==> startup == Abort(HomeMissing) && effects == NoEffects
    // A tool that starts is used as it is, and nothing is fetched or written.
    ensures env.home.Some? && env.probeLaunches ==>
      startup == Ready(DefaultTool) && effects == NoEffects
    // The cache directory is created only when it was missing.
    ensures effects.createDir ==
      if MustDownload(env) && env.stat == Missing
      then Some(env.home.value + "/.luau-format-gui") else None
    ensures MustDownload(env) && env.stat == StatFailed ==>
      startup == Abort("failed to stat " + env.home.value + "/.luau-format-gui")
    ensures MustDownload(env) && env.stat == Missing && !env.createDirOk ==>
      startup == Abort("failed to create dir " + env.home.value + "/.luau-format-gui")
    // Exactly one request, for the platform's asset, once the directory is ready.
    ensures effects.request ==
      if MustDownload(env) && DirReady(env)
      then Some(DownloadUrl(env.windows, env.arch)) else None
    ensures effects.request.Some? && env.fetch == RequestFailed ==>
      startup == Abort(RequestFailedMessage)
    ensures effects.request.Some? && env.fetch == BodyFailed ==>
      startup == Abort(BodyFailedMessage)
    // The "Not Found" body aborts before anything is written.
    ensures effects.request.Some? && env.fetch == Body(NotFound) ==>
      && effects.write == None
      && startup == Abort("invalid file at url " + effects.request.value
                          + "! is your architecture supported?")
    // Any other body is written to the cache path.
    ensures effects.write ==
      if effects.request.Some? && env.fetch.Body? && env.fetch.bytes != NotFound
      then Some(FileBytes(env.home.value + "/.luau-format-gui/luau-format", env.fetch.bytes))
      else None
    ensures effects.write.Some? && !env.writeOk ==>
      startup == Abort("failed to write to " + effects.write.value.path)
    // The downloaded tool is used exactly when it was written successfully.
    ensures startup.Ready? <==>
      env.home.Some? && (env.probeLaunches || (effects.write.Some? && env.writeOk))
    ensures startup.Ready? && !env.probeLaunches ==>
      startup.toolPath == env.home.value + "/.luau-format-gui/luau-format"
  {
    effects := NoEffects;
    if env.home.None? {
      return Abort(HomeMissing), effects;
    }
    var home := env.home.value;
    var binaryPath := DefaultTool;
    if !env.probeLaunches {
      var url := DownloadUrl(env.windows, env.arch);
      var path := home + "/.luau-format-gui";
      if env.stat == StatFailed {
        return Abort("failed to stat " + path), effects;
      }
      if env.stat == Missing {
        effects := effects.(createDir := Some(path));
        if !env.createDirOk {
          return Abort("failed to create dir " + path), effects;
        }
      }
      path := path + "/luau-format";
      assert path == home + "/.luau-format-gui/luau-format";
      effects := effects.(request := Some(url));
      if env.fetch == RequestFailed {
        return Abort(RequestFailedMessage), effects;
      }
      if env.fetch == BodyFailed {
        return Abort(BodyFailedMessage), effects;
      }
      var body := env.fetch.bytes;
      if body == NotFound {
        return Abort("invalid file at url " + url + "! is your architecture supported?"), effects;
      }
      effects := effects.(write := Some(FileBytes(path, body)));
      if !env.writeOk {
        return Abort("failed to write to " + path), effects;
      }
      binaryPath := path;
    }
    startup := Ready(binaryPath);
  }
}
