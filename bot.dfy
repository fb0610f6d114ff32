/**
  The bot's request handler `process_link`: it classifies the message as an
  audio or a video request, checks the link against the supported sites, has
  the adapter download the media into the chat's directory, delivers the file
  inline or through the hosting service depending on its size, reports every
  failure in one message, and removes the downloaded file at the end.

  The chat transport is reduced to a trace of events; the engine, the directory
  listing, the hosting upload and the transport's failures are oracles.
 */
module Bot {
  import opened Errors
  import opened Strings
  import opened Os
  import opened Utils

  /** Files below this many bytes are sent inline (the transport's cap is 50 MB). */
  const TelegramLimit: nat := 49 * 1024 * 1024
  /** The size cap handed to the adapter: none. */
  const MaxFileSize: Option<int> := None
  const AudioCommand: string := "/audio"
  /** The allow-list: a link must contain one of these. */
  const SupportedSites: seq<string> :=
    ["youtube.com", "youtu.be", "tiktok.com", "instagram.com", "facebook.com", "pinterest.com", "pin.it"]

  /** `any(site in url for site in supported_sites)` */
  predicate IsSupported(url: string) {
    AnyContains(url, SupportedSites)
  }

  /** The audio restriction: the link is a YouTube link. */
  predicate IsYouTube(url: string) {
    Contains(url, "youtube.com") || Contains(url, "youtu.be")
  }

  /** Reference meaning of the allow-list: some listed site occurs in the link. */
  ghost predicate NamesSupportedSite(url: string) {
    exists k :: 0 <= k < |SupportedSites| && Occurs(url, SupportedSites[k])
  }

  lemma {:induction false} SiteCheckMeaning(url: string)
    ensures IsSupported(url) <==> NamesSupportedSite(url)
    ensures IsYouTube(url) <==> Occurs(url, "youtube.com") || Occurs(url, "youtu.be")
  {
    AnyContainsIff(url, SupportedSites);
    forall k | 0 <= k < |SupportedSites|
      ensures Contains(url, SupportedSites[k]) <==> Occurs(url, SupportedSites[k])
    {
      ContainsIsOccurs(url, SupportedSites[k]);
    }
    ContainsIsOccurs(url, "youtube.com");
    ContainsIsOccurs(url, "youtu.be");
  }

  /** The incoming text message, with the command arguments the transport split off. */
  datatype Message = Message(text: string, args: seq<string>, chatId: int)

  /** The request a message stands for. */
  datatype Request = MissingLink | Link(isAudio: bool, url: string)

  /** Mode detection and URL extraction. */
  function ParseRequest(m: Message): (r: Request)
    ensures r.MissingLink? <==> StartsWith(m.text, AudioCommand) && m.args == []
    ensures r.Link? ==> (r.isAudio <==> StartsWith(m.text, AudioCommand))
    ensures r.Link? && r.isAudio ==> |m.args| > 0 && r.url == m.args[0]
    ensures r.Link? && !r.isAudio ==> r.url == m.text
  {
    if StartsWith(m.text, AudioCommand) then
      if m.args == [] then MissingLink else Link(true, m.args[0])
    else Link(false, m.text)
  }

  /** What the bot tells the user (the texts themselves are not modelled). */
  datatype Notice =
    | AskForLink               // /audio without an argument
    | UnsupportedSite          // the link names none of the supported sites
    | AudioOnlyYouTube         // audio requested for a site other than YouTube
    | Downloading(audio: bool) // the status message
    | Sending                  // status: sending the file inline
    | Uploading(megabytes: nat)// status: the file is too large, uploading
    | LinkReady(link: string)  // the hosted download link
    | UploadFailed             // the upload helper gave no link
    | Failed(error: Error)     // the text of a caught exception

  /** What the handler does to the outside world, in order. */
  datatype Event =
    | Reply(notice: Notice)      // a new message in the chat
    | EditStatus(notice: Notice) // the status message is edited
    | DeleteStatus               // the status message is deleted
    | SendAudio(path: Path)      // the file is sent inline as audio
    | SendVideo(path: Path)      // the file is sent inline as video
    | MediaRequested(url: string, isAudio: bool, dir: Path) // download_media is called
    | UploadCalled(path: Path)   // upload_to_gofile is called
    | CleanupRaised(path: Path)  // os.remove raised in the `finally` clause

  /** The site check, then the audio restriction: the rejection to reply with, if any. */
  function Validate(isAudio: bool, url: string): (r: Option<Notice>)
    ensures r == Some(UnsupportedSite) <==> !NamesSupportedSite(url)
    ensures r == Some(AudioOnlyYouTube) <==>
              NamesSupportedSite(url) && isAudio && !Occurs(url, "youtube.com") && !Occurs(url, "youtu.be")
    ensures r.None? || r == Some(UnsupportedSite) || r == Some(AudioOnlyYouTube)
  {
    SiteCheckMeaning(url);
    if !IsSupported(url) then Some(UnsupportedSite)
    else if isAudio && !IsYouTube(url) then Some(AudioOnlyYouTube)
    else None
  }

  /** The chat's own download directory, `downloads/<chat id>`. */
  function DownloadDir(chatId: int): (dir: Path)
    ensures |dir| > 0 && dir[|dir| - 1] != '/'
    ensures StartsWith(dir, "downloads/")
  {
    var digits := DecimalString(chatId);
    assert digits[|digits| - 1] in digits;
    "downloads/" + digits
  }

  /** Different chats download into different directories. */
  lemma DownloadDirsDistinct(a: int, b: int)
    requires a != b
    ensures DownloadDir(a) != DownloadDir(b)
  {
    if DownloadDir(a) == DownloadDir(b) {
      var prefix := "downloads/";
      assert DecimalString(a) == DownloadDir(a)[|prefix|..];
      assert DecimalString(b) == DownloadDir(b)[|prefix|..];
      DecimalStringInjective(a, b);
    }
  }

  /** Which transport calls raise: the first status reply, the inline send. */
  datatype Transport = Transport(statusFails: bool, sendFails: bool)

  /** The oracles one run of the handler consults. */
  datatype World = World(
    engine: Engine,                 // the extraction engine
    listing: seq<string>,           // os.listdir of the download directory, in its order
    upload: Call<Option<string>>,   // upload_to_gofile
    transport: Transport)

  /** Python truthiness of the upload helper's result. */
  predicate LinkTruthy(link: Option<string>) {
    link.Some? && link.value != ""
  }

  /** Events produced by a step of the `try` block, and the exception it raised. */
  datatype Step = Step(trace: seq<Event>, raised: Option<Error>)

  /** The size branch, for a file of `size` bytes at `p`. */
  function Deliver(p: Path, size: nat, isAudio: bool, w: World): Step {
    if size < TelegramLimit then
      if w.transport.sendFails then Step([EditStatus(Sending)], Some(TransportFailure))
      else Step([EditStatus(Sending), if isAudio then SendAudio(p) else SendVideo(p), DeleteStatus], None)
    else
      var announced := [EditStatus(Uploading(size / 1024 / 1024)), UploadCalled(p)];
      match w.upload
      case Raises(e) => Step(announced, Some(e))
      case Returns(link) =>
        Step(announced + [Reply(if LinkTruthy(link) then LinkReady(link.value) else UploadFailed), DeleteStatus], None)
  }

  /** Where the `try` block stops: its events, the filesystem, the value of
      `file_path`, whether `status_message` was set, and what it raised. */
  datatype Attempt = Attempt(trace: seq<Event>, st: FsState, filePath: Option<Path>,
                             statusShown: bool, raised: Option<Error>)

  function TryBlock(st: FsState, isAudio: bool, url: string, chatId: int, w: World): Attempt {
    if w.transport.statusFails then Attempt([], st, None, false, Some(TransportFailure))
    else
      var dir := DownloadDir(chatId);
      var started := [Reply(Downloading(isAudio)), MediaRequested(url, isAudio, dir)];
      AfterDownload(started, DownloadMediaSpec(st, url, isAudio, dir, MaxFileSize, w.engine, w.listing), isAudio, w)
  }

  /** The rest of the `try` block once `download_media` has returned or raised. */
  function AfterDownload(started: seq<Event>, d: Downloaded, isAudio: bool, w: World): Attempt {
    match d.result
    case Err(e) => Attempt(started, d.st, None, true, Some(e))
    case Ok(p) =>
      if p == "" then Attempt(started, d.st, Some(p), true, Some(NothingReturned))
      else if p !in d.st.files then Attempt(started, d.st, Some(p), true, Some(NoSuchFile(p)))
      else
        var s := Deliver(p, d.st.files[p], isAudio, w);
        Attempt(started + s.trace, d.st, Some(p), true, s.raised)
  }

  /** The `except` clause: the error edits the status message when there is one,
      and is a new reply otherwise. */
  function Report(a: Attempt): seq<Event> {
    match a.raised
    case None => a.trace
    case Some(e) => a.trace + [if a.statusShown then EditStatus(Failed(e)) else Reply(Failed(e))]
  }

  /** The observable result of one run: the events and the final filesystem. */
  datatype Run = Run(trace: seq<Event>, st: FsState)

  /** The `except` clause, then the `finally` clause: the file named by a
      non-empty `file_path` is removed when it exists. */
  function Finish(a: Attempt): Run {
    var reported := Report(a);
    match a.filePath
    case None => Run(reported, a.st)
    case Some(p) =>
      if p != "" && Exists(a.st, p) then
        if p in a.st.files then Run(reported, a.st.(files := a.st.files - {p}))
        else Run(reported + [CleanupRaised(p)], a.st)
      else Run(reported, a.st)
  }

  /** `process_link` as a function of the filesystem, the message and the oracles. */
  function Pipeline(st: FsState, m: Message, w: World): Run {
    match ParseRequest(m)
    case MissingLink => Run([Reply(AskForLink)], st)
    case Link(isAudio, url) =>
      match Validate(isAudio, url)
      case Some(n) => Run([Reply(n)], st)
      case None => Finish(TryBlock(st, isAudio, url, m.chatId, w))
  }

  /** The size branch as statements: the status edit, then the inline send or
      the upload and its reply. */
  method DeliverFile(p: Path, size: nat, isAudio: bool, w: World) returns (s: Step)
    ensures s == Deliver(p, size, isAudio, w)
  {
    var trace: seq<Event> := [];
    var raised: Option<Error> := None;
    if size < TelegramLimit {
      trace := trace + [EditStatus(Sending)];
      if w.transport.sendFails {
        raised := Some(TransportFailure);
      } else {
        trace := trace + [if isAudio then SendAudio(p) else SendVideo(p)];
      }
    } else {
      trace := trace + [EditStatus(Uploading(size / 1024 / 1024)), UploadCalled(p)];
      match w.upload
      case Raises(e) =>
        raised := Some(e);
      case Returns(link) =>
        if LinkTruthy(link) {
          trace := trace + [Reply(LinkReady(link.value))];
        } else {
          trace := trace + [Reply(UploadFailed)];
        }
    }
    if raised.None? {
      trace := trace + [DeleteStatus];
    }
    s := Step(trace, raised);
  }

  /** The `try` block: it sets `status_message`, calls the adapter, sets
      `file_path`, checks it, measures the file and delivers it; it stops at the
      first exception. */
  method TryDownload(fs: FileSystem, isAudio: bool, url: string, chatId: int, w: World) returns (a: Attempt)
    modifies fs
    ensures a == TryBlock(old(fs.State()), isAudio, url, chatId, w)
    ensures fs.State() == a.st
  {
    if w.transport.statusFails {
      return Attempt([], fs.State(), None, false, Some(TransportFailure));
    }
    var dir := DownloadDir(chatId);
    var trace := [Reply(Downloading(isAudio)), MediaRequested(url, isAudio, dir)];
    var r := DownloadMedia(fs, url, isAudio, dir, MaxFileSize, w.engine, w.listing);
    a := CheckAndDeliver(fs, trace, r, isAudio, w);
  }

  /** The rest of the `try` block: `file_path` is checked, the file measured
      and delivered. */
  method CheckAndDeliver(fs: FileSystem, started: seq<Event>, r: Result<Path>, isAudio: bool, w: World)
    returns (a: Attempt)
    ensures a == AfterDownload(started, Downloaded(fs.State(), r), isAudio, w)
  {
    if r.Err? {
      return Attempt(started, fs.State(), None, true, Some(r.error));
    }
    var filePath := r.value;
    if filePath == "" {
      return Attempt(started, fs.State(), Some(filePath), true, Some(NothingReturned));
    }
    var size := fs.Size(filePath);
    if size.None? {
      return Attempt(started, fs.State(), Some(filePath), true, Some(NoSuchFile(filePath)));
    }
    var s := DeliverFile(filePath, size.value, isAudio, w);
    a := Attempt(started + s.trace, fs.State(), Some(filePath), true, s.raised);
  }

  /** The `except` clause reporting the error, then the `finally` clause that
      removes the file named by `file_path`. */
  method Conclude(fs: FileSystem, a: Attempt) returns (trace: seq<Event>)
    requires fs.State() == a.st
    modifies fs
    ensures Run(trace, fs.State()) == Finish(a)
  {
    trace := a.trace;
    // except
    if a.raised.Some? {
      if a.statusShown {
        trace := trace + [EditStatus(Failed(a.raised.value))];
      } else {
        trace := trace + [Reply(Failed(a.raised.value))];
      }
    }
    // finally
    if a.filePath.Some? && a.filePath.value != "" && fs.PathExists(a.filePath.value) {
      var removed := fs.Remove(a.filePath.value);
      if !removed {
        trace := trace + [CleanupRaised(a.filePath.value)];
      }
    }
  }

  /** The handler as the source writes it: early returns for the rejections,
      then the `try` block, the `except` clause and the `finally` clause. */
  method ProcessLink(fs: FileSystem, m: Message, w: World) returns (trace: seq<Event>)
    modifies fs
    ensures Run(trace, fs.State()) == Pipeline(old(fs.State()), m, w)
  {
    var request := ParseRequest(m);
    if request.MissingLink? {
      return [Reply(AskForLink)];
    }
    var isAudio, url := request.isAudio, request.url;
    var rejection := Validate(isAudio, url);
    if rejection.Some? {
      return [Reply(rejection.value)];
    }
    var a := TryDownload(fs, isAudio, url, m.chatId, w);
    trace := Conclude(fs, a);
  }
}
