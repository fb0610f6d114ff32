/**
  The extraction adapter `download_media`: it prepares the download directory,
  builds the option map for the extraction engine, asks the engine for the
  media's metadata, lets it download, and locates the file it produced. The
  engine itself is an oracle: two total functions of the option map and the URL.
 */
module Utils {
  import opened Errors
  import opened Strings
  import opened Os

  /** The cookie file written at start-up, looked up relative to the working directory. */
  const CookieFile: Path := "cookies.txt"
  /** The engine's output template inside the download directory. */
  const OutputTemplate: string := "%(id)s.%(ext)s"
  const AudioFormat: string := "bestaudio/best"
  const VideoFormat: string := "bestvideo[ext=mp4]+bestaudio[ext=m4a]/best[ext=mp4]/best"
  /** The text by which the engine's own size-limit refusal is recognised. */
  const SizeLimitMarker: string := "File is larger than the maximum"

  /** The option names `download_media` sets (the `logger` entry is not modelled). */
  datatype Key =
    | OutTmpl | NoPlaylist | NoCheckCertificate | IgnoreErrors
    | CookieFileKey | MaxFilesize | Format | Postprocessors

  /** A post-processing step requested from the engine. */
  datatype Postprocessor =
    | FFmpegExtractAudio(preferredCodec: string, preferredQuality: string)
    | FFmpegVideoConvertor(preferredFormat: string)

  /** A value of the engine's option dictionary. */
  datatype OptValue =
    | Text(s: string)
    | Flag(b: bool)
    | Number(n: int)
    | Steps(list: seq<Postprocessor>)

  type Options = map<Key, OptValue>

  const AudioPostprocessor: Postprocessor := FFmpegExtractAudio("mp3", "192")
  const VideoPostprocessor: Postprocessor := FFmpegVideoConvertor("mp4")

  /** Python truthiness of the optional `max_size` argument: `None` and `0` are false. */
  predicate Truthy(maxSize: Option<int>) {
    maxSize.Some? && maxSize.value != 0
  }

  /** The keys the option map has whatever the arguments. */
  const FixedKeys: set<Key> :=
    {OutTmpl, NoPlaylist, NoCheckCertificate, IgnoreErrors, Format, Postprocessors}

  /** The entries that `ydl_opts.update(...)` adds for the mode. */
  function FormatOptions(isAudio: bool): Options {
    if isAudio then
      map[Format := Text(AudioFormat), Postprocessors := Steps([AudioPostprocessor])]
    else
      map[Format := Text(VideoFormat), Postprocessors := Steps([VideoPostprocessor])]
  }

  /** `ydl_opts` as `download_media` builds it, step by step: the base entries,
      the cookie file when it exists, the size cap when one is given, then the
      entries of the mode. */
  function BuildOptions(isAudio: bool, dir: Path, cookiesPresent: bool, maxSize: Option<int>): (opts: Options)
    ensures opts.Keys == FixedKeys
                         + (if cookiesPresent then {CookieFileKey} else {})
                         + (if Truthy(maxSize) then {MaxFilesize} else {})
    ensures opts[OutTmpl] == Text(Join(dir, OutputTemplate))
    ensures opts[NoPlaylist] == Flag(true)
    ensures opts[NoCheckCertificate] == Flag(true)
    ensures opts[IgnoreErrors] == Flag(true)
    ensures CookieFileKey in opts <==> cookiesPresent
    ensures CookieFileKey in opts ==> opts[CookieFileKey] == Text(CookieFile)
    ensures MaxFilesize in opts <==> maxSize.Some? && maxSize.value != 0
    ensures MaxFilesize in opts ==> opts[MaxFilesize] == Number(maxSize.value)
    ensures isAudio ==> opts[Format] == Text(AudioFormat)
                        && opts[Postprocessors] == Steps([AudioPostprocessor])
    ensures !isAudio ==> opts[Format] == Text(VideoFormat)
                         && opts[Postprocessors] == Steps([VideoPostprocessor])
  {
    var base := map[
      OutTmpl := Text(Join(dir, OutputTemplate)),
      NoPlaylist := Flag(true),
      NoCheckCertificate := Flag(true),
      IgnoreErrors := Flag(true)];
    var withCookies := if cookiesPresent then base[CookieFileKey := Text(CookieFile)] else base;
    var withLimit := if Truthy(maxSize) then withCookies[MaxFilesize := Number(maxSize.value)] else withCookies;
    withLimit + FormatOptions(isAudio)
  }

  /** Metadata as `extract_info` returns it; only string-valued entries are modelled. */
  type Metadata = map<string, string>

  /** What the engine's `download` did: the files it wrote (full paths and sizes),
      kept even when it then raised, and the exception it raised, if any. */
  datatype Download = Download(written: map<Path, nat>, raised: Option<Error>)

  /** The extraction engine, configured by the option map, applied to the URL. */
  datatype Engine = Engine(
    extractInfo: (Options, string) -> Call<Option<Metadata>>,
    download: (Options, string) -> Download)

  /** The `except` clauses of `download_media`: an engine download error becomes
      the size-limit error when its text says so and the generic one otherwise;
      every other exception is raised again unchanged. */
  function MapEngineError(e: Error): (r: Error)
    ensures !r.DownloadError?
    ensures !e.DownloadError? ==> r == e
    ensures e.DownloadError? ==> (r == FileTooLarge <==> Occurs(e.text, SizeLimitMarker))
    ensures e.DownloadError? ==> (r == CannotDownload <==> !Occurs(e.text, SizeLimitMarker))
  {
    match e
    case DownloadError(text) =>
      ContainsIsOccurs(text, SizeLimitMarker);
      if Contains(text, SizeLimitMarker) then FileTooLarge else CannotDownload
    case _ => e
  }

  /** `[f for f in listing if f.startswith(id)]` */
  function Matching(listing: seq<string>, id: string): (found: seq<string>)
    ensures forall f :: f in found ==> f in listing && StartsWith(f, id)
  {
    if listing == [] then []
    else (if StartsWith(listing[0], id) then [listing[0]] else []) + Matching(listing[1..], id)
  }

  /** Entry `k` is the first entry of the listing whose name starts with `id`. */
  ghost predicate FirstMatchAt(listing: seq<string>, id: string, k: int) {
    && 0 <= k < |listing|
    && StartsWith(listing[k], id)
    && forall j :: 0 <= j < k ==> !StartsWith(listing[j], id)
  }

  /** The comprehension is empty exactly when no entry matches, and otherwise
      its head is the first matching entry in listing order. */
  lemma {:induction false} MatchingFirst(listing: seq<string>, id: string)
    ensures Matching(listing, id) == [] <==> forall i :: 0 <= i < |listing| ==> !StartsWith(listing[i], id)
    ensures Matching(listing, id) != [] ==>
              exists k :: FirstMatchAt(listing, id, k) && Matching(listing, id)[0] == listing[k]
  {
    if listing != [] {
      MatchingFirst(listing[1..], id);
      if StartsWith(listing[0], id) {
        assert FirstMatchAt(listing, id, 0);
      } else {
        assert forall i :: 1 <= i < |listing| ==> listing[i] == listing[1..][i - 1];
        if Matching(listing, id) != [] {
          var k :| FirstMatchAt(listing[1..], id, k) && Matching(listing[1..], id)[0] == listing[1..][k];
          assert FirstMatchAt(listing, id, k + 1);
        }
      }
    }
  }

  function ExpectedExt(isAudio: bool): string {
    if isAudio then "mp3" else "mp4"
  }

  /** The file the engine is expected to have produced for the id and mode. */
  function ExpectedPath(dir: Path, id: string, isAudio: bool): Path {
    Join(dir, id + "." + ExpectedExt(isAudio))
  }

  /** Locating the engine's output after the download: `id.mp3` / `id.mp4` when it
      exists, else the first listed entry whose name starts with the id, else an
      error naming the id. */
  function ResolveOutput(st: FsState, dir: Path, id: string, isAudio: bool, listing: seq<string>): (r: Result<Path>)
    ensures Exists(st, ExpectedPath(dir, id, isAudio)) ==> r == Ok(ExpectedPath(dir, id, isAudio))
    ensures !Exists(st, ExpectedPath(dir, id, isAudio)) && r.Ok? ==>
              exists k :: FirstMatchAt(listing, id, k) && r.value == Join(dir, listing[k])
    ensures r.Err? <==> !Exists(st, ExpectedPath(dir, id, isAudio))
                        && forall i :: 0 <= i < |listing| ==> !StartsWith(listing[i], id)
    ensures r.Err? ==> r.error == OutputNotFound(id)
  {
    var expected := ExpectedPath(dir, id, isAudio);
    if Exists(st, expected) then Ok(expected)
    else
      var found := Matching(listing, id);
      MatchingFirst(listing, id);
      if found != [] then Ok(Join(dir, found[0])) else Err(OutputNotFound(id))
  }

  /** A located output is the download directory, one separator, and a name that
      starts with the id and is either `id.ext` or a listed entry, provided the
      directory has no trailing separator and neither the id nor any listed name
      is absolute. */
  lemma ResolvedPathInDir(st: FsState, dir: Path, id: string, isAudio: bool, listing: seq<string>)
    requires |dir| > 0 && dir[|dir| - 1] != '/'
    requires !StartsWith(id, "/")
    requires forall i :: 0 <= i < |listing| ==> !StartsWith(listing[i], "/")
    requires ResolveOutput(st, dir, id, isAudio, listing).Ok?
    ensures var p := ResolveOutput(st, dir, id, isAudio, listing).value;
            && StartsWith(p, dir + "/") && StartsWith(p[|dir| + 1..], id)
            && (p[|dir| + 1..] == id + "." + ExpectedExt(isAudio) || p[|dir| + 1..] in listing)
  {
    var p := ResolveOutput(st, dir, id, isAudio, listing).value;
    var name := id + "." + ExpectedExt(isAudio);
    if Exists(st, ExpectedPath(dir, id, isAudio)) {
      assert name[..|id|] == id;
      assert !StartsWith(name, "/") by {
        assert name[..1] == [name[0]];
        if |id| > 0 {
          assert name[0] == id[0] && id[..1] == [id[0]];
        } else {
          assert name[0] == '.';
        }
      }
      JoinUnder(dir, name);
      assert p == dir + "/" + name;
      assert p[|dir| + 1..] == name;
    } else {
      var k :| FirstMatchAt(listing, id, k) && p == Join(dir, listing[k]);
      JoinUnder(dir, listing[k]);
      assert p[|dir| + 1..] == listing[k];
    }
  }

  /** Where `download_media` leaves the filesystem and what it returns or raises. */
  datatype Downloaded = Downloaded(st: FsState, result: Result<Path>)

  /** `download_media(url, is_audio, download_dir, max_size)` as a function of the
      filesystem before the call, the engine and the directory listing. */
  function DownloadMediaSpec(st: FsState, url: string, isAudio: bool, dir: Path, maxSize: Option<int>,
                             engine: Engine, listing: seq<string>): (d: Downloaded)
  {
    if dir in st.files then Downloaded(st, Err(DirectoryBlocked(dir)))
    else
      var made := st.(dirs := st.dirs + {dir});
      var opts := BuildOptions(isAudio, dir, Exists(made, CookieFile), maxSize);
      match engine.extractInfo(opts, url)
      case Raises(e) => Downloaded(made, Err(MapEngineError(e)))
      case Returns(info) =>
        if info.None? || info.value == map[] then Downloaded(made, Err(NoInformation))
        else if "id" !in info.value || info.value["id"] == "" then Downloaded(made, Err(NoMediaId))
        else
          var out := engine.download(opts, url);
          var after := made.(files := made.files + out.written);
          if out.raised.Some? then Downloaded(after, Err(MapEngineError(out.raised.value)))
          else Downloaded(after, ResolveOutput(after, dir, info.value["id"], isAudio, listing))
  }

  /** The adapter as the imperative steps of the source: create the directory,
      build the options, query the engine, download, locate the file. */
  method DownloadMedia(fs: FileSystem, url: string, isAudio: bool, dir: Path, maxSize: Option<int>,
                       engine: Engine, listing: seq<string>) returns (r: Result<Path>)
    modifies fs
    ensures Downloaded(fs.State(), r) == DownloadMediaSpec(old(fs.State()), url, isAudio, dir, maxSize, engine, listing)
  {
    var blocked := fs.MakeDirs(dir);
    if blocked {
      return Err(DirectoryBlocked(dir));
    }
    var opts := BuildOptions(isAudio, dir, fs.PathExists(CookieFile), maxSize);
    var info := engine.extractInfo(opts, url);
    if info.Raises? {
      return Err(MapEngineError(info.error));
    }
    var meta := info.value;
    if meta.None? || meta.value == map[] {
      return Err(NoInformation);
    }
    if "id" !in meta.value || meta.value["id"] == "" {
      return Err(NoMediaId);
    }
    var id := meta.value["id"];
    var out := engine.download(opts, url);
    fs.Write(out.written);
    if out.raised.Some? {
      return Err(MapEngineError(out.raised.value));
    }
    r := ResolveOutput(fs.State(), dir, id, isAudio, listing);
  }

  // ---- Properties of the adapter as a whole ----

  /** No engine `DownloadError` ever leaves `download_media`: each is translated. */
  lemma NoEngineErrorEscapes(st: FsState, url: string, isAudio: bool, dir: Path, maxSize: Option<int>,
                             engine: Engine, listing: seq<string>)
    ensures var d := DownloadMediaSpec(st, url, isAudio, dir, maxSize, engine, listing);
            d.result.Err? ==> !d.result.error.DownloadError?
  {
  }

  /** Metadata that is missing or empty, or has no usable id, is reported before
      anything is downloaded: the outcome does not depend on the engine's
      `download` at all, and no file is written. */
  lemma MetadataCheckedBeforeDownload(st: FsState, url: string, isAudio: bool, dir: Path, maxSize: Option<int>,
                                      engine: Engine, other: (Options, string) -> Download, listing: seq<string>)
    requires dir !in st.files
    requires var opts := BuildOptions(isAudio, dir, Exists(st.(dirs := st.dirs + {dir}), CookieFile), maxSize);
             var info := engine.extractInfo(opts, url);
             info.Returns? && (info.value.None? || info.value.value == map[] ||
                               "id" !in info.value.value || info.value.value["id"] == "")
    ensures var d := DownloadMediaSpec(st, url, isAudio, dir, maxSize, engine, listing);
            && d == DownloadMediaSpec(st, url, isAudio, dir, maxSize, engine.(download := other), listing)
            && d.st == st.(dirs := st.dirs + {dir})
            && (var info := engine.extractInfo(BuildOptions(isAudio, dir, Exists(st.(dirs := st.dirs + {dir}), CookieFile), maxSize), url).value;
                && ((info.None? || info.value == map[]) ==> d.result == Err(NoInformation))
                && (info.Some? && info.value != map[] && ("id" !in info.value || info.value["id"] == "") ==>
                      d.result == Err(NoMediaId)))
  {
  }

  /** `download_media` only ever adds: the download directory and the files the
      engine wrote. It never removes a file. */
  lemma DownloadOnlyAdds(st: FsState, url: string, isAudio: bool, dir: Path, maxSize: Option<int>,
                         engine: Engine, listing: seq<string>)
    ensures var d := DownloadMediaSpec(st, url, isAudio, dir, maxSize, engine, listing);
            && st.files.Keys <= d.st.files.Keys
            && d.st.dirs == (if dir in st.files then st.dirs else st.dirs + {dir})
            && (forall p :: p in d.st.files && p !in st.files ==>
                  p in engine.download(BuildOptions(isAudio, dir, Exists(st.(dirs := st.dirs + {dir}), CookieFile), maxSize), url).written)
  {
  }
}
