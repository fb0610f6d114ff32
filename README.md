# Telegram media-download bot — verified model

This project models the core of a Telegram bot that downloads media from video
sites and hands it back to the chat. Two parts are modelled:

- **`process_link`** (bot.py), the request handler:
  - it reads the mode from the `/audio` prefix and picks out the link;
  - it checks the link against a list of seven supported sites and restricts
    audio requests to YouTube;
  - it posts a status message and has the adapter download the media into
    `downloads/<chat id>`;
  - a file below 49 MiB is sent inline, and one of 49 MiB or more is uploaded
    to a hosting service whose link is posted;
  - every exception is reported in one message, and the downloaded file is
    removed in the `finally` clause.
- **`download_media`** (utils.py), the extraction adapter:
  - it creates the download directory and builds the engine's option map;
  - it asks the engine for metadata and checks it for an `id`;
  - it lets the engine download, then finds the file it produced: `id.mp3`
    or `id.mp4` first, otherwise the first listed entry whose name starts with
    the id;
  - it translates the engine's download errors.

These outside parts are oracles, i.e. values the caller supplies:

- the extraction engine: a pair of total functions, one for metadata and one
  for the download, each taking the option map and the URL;
- the directory listing;
- the upload helper's result;
- which transport calls raise.

The chat is a trace of `Event`s. The filesystem is the class
`Os.FileSystem`, which maps each file path to its size and also holds a set of
directories.

Each imperative method is proved equal to a pure function of the state before
the call:

- `Utils.DownloadMedia` computes `Utils.DownloadMediaSpec`;
- `Bot.ProcessLink` computes `Bot.Pipeline`, through `Bot.TryDownload`,
  `Bot.CheckAndDeliver`, `Bot.DeliverFile` and `Bot.Conclude`.

The properties of the handler and the adapter are lemmas about those functions.
They live in `bot_properties.dfy` and in the property section of `utils.dfy`.

Files:

- `errors.dfy`: `Option`, `Result`, the outcome of a call that may raise, and
  the exceptions as tags;
- `strings.dfy`:
  - `startswith`;
  - substring `in`, with its reference meaning `Occurs`;
  - `any(...)`;
  - `str(int)`;
- `os.dfy`: `os.path.join`, and the filesystem with `makedirs`, `exists`,
  `getsize` and `remove`;
- `utils.dfy`: the adapter;
- `bot.dfy`: the handler;
- `bot_properties.dfy`: what the handler guarantees.

The `finally` clause removes only the path that `download_media` returned
(bot.py:110-112), and does so only when that path was assigned. Files that the
engine wrote before its download raised stay on disk, and so do other files
sharing the id. `BotProperties.PartialDownloadSurvives` states this.

## Model

| member | source | states |
|---|---|---|
| Strings.ContainsIsOccurs | bot.py:59-63 | The computed substring test `t in s` holds exactly when `t` occurs in `s` at some position. |
| Strings.AnyContainsIff | bot.py:59 | `any(t in s for t in needles)` holds exactly when some needle of the list occurs in `s`. |
| Strings.DecimalString | bot.py:73 | The chat id prints as a non-empty string of digits, with a leading minus for negative ids, and without '/'. |
| Strings.DecimalStringInjective | bot.py:73 | Different ints print differently. |
| Os.Join | utils.py:46 | An absolute second component replaces the first. Otherwise the result starts with the first component and ends with the second. |
| Os.JoinUnder | utils.py:107-112 | A directory with no trailing '/' joined with a relative name gives the directory, one '/', and the name. |
| Os.FileSystem.PathExists | utils.py:58 | `os.path.exists` holds for files and for directories. |
| Os.FileSystem.Size | bot.py:80 | `os.path.getsize` gives the size of a regular file and fails for any other path. |
| Os.FileSystem.MakeDirs | utils.py:43 | `makedirs(exist_ok=True)` fails exactly when a file occupies the path. Otherwise the directory exists afterwards, and no file changes. |
| Os.FileSystem.Write | utils.py:102 | The engine's download adds or overwrites exactly the files it wrote. |
| Os.FileSystem.Remove | bot.py:112 | `os.remove` deletes exactly that one file and fails when the path is not a regular file. |
| Utils.BuildOptions | utils.py:46-85 | The option map always holds the output template joined onto the directory and the three flags set to true. `cookiefile` is present exactly when the cookie file exists. `max_filesize` is present exactly when `max_size` is truthy, so both None and 0 omit it. Audio mode gets `bestaudio/best` with one FFmpegExtractAudio step (mp3, 192). Video mode gets the mp4 format with one FFmpegVideoConvertor step (mp4). Apart from the `logger` entry, which is not modelled, nothing else is in the map. |
| Utils.MapEngineError | utils.py:120-128 | A download error that mentions the size-limit marker becomes the size-limit error, and every other download error becomes the generic one. Any other exception passes through unchanged, and no download error escapes. |
| Utils.Matching | utils.py:110 | Every entry the comprehension keeps is in the listing and starts with the id. |
| Utils.MatchingFirst | utils.py:110-112 | The comprehension is empty exactly when no entry starts with the id. Otherwise its head is the first matching entry in listing order. |
| Utils.ResolveOutput | utils.py:106-115 | If the expected `id.mp3` (audio) or `id.mp4` (video) path exists, that path is returned. Otherwise the result is the directory joined with the first listed entry that starts with the id. An error naming the id is raised exactly when neither exists. |
| Utils.ResolvedPathInDir | utils.py:106-118 | Take a directory with no trailing '/', a relative id and relative listed names. A located path is then the directory, one '/', and a name that starts with the id. That name is either `id.mp3`/`id.mp4` or an entry of the listing. So the file lies directly in the directory whenever neither the id nor the entry contains '/'. |
| Utils.DownloadMedia | utils.py:26-128 | The method's result and final filesystem are those of `DownloadMediaSpec`. In order: makedirs, options, metadata check, id check, download, resolution, error translation. |
| Utils.NoEngineErrorEscapes | utils.py:120-128 | An error raised out of `download_media` is never a raw engine download error. |
| Utils.MetadataCheckedBeforeDownload | utils.py:90-102 | Falsy metadata (None or an empty map) gives the no-information error. Non-empty metadata whose `id` is missing or empty gives the no-id error. In both cases the outcome does not depend on the engine's download, and no file is written. |
| Utils.DownloadOnlyAdds | utils.py:43-102 | `download_media` never removes a file. It adds only the directory and the files the engine wrote. |
| Bot.SiteCheckMeaning | bot.py:55-63 | The computed allow-list test holds exactly when one of the seven sites occurs in the link. The YouTube test holds exactly when `youtube.com` or `youtu.be` occurs in it. |
| Bot.ParseRequest | bot.py:45-53 | The mode is audio exactly when the text starts with `/audio`. `/audio` without arguments is the missing-link case. The audio URL is the first argument, and the video URL is the whole text. |
| Bot.Validate | bot.py:55-65 | The generic rejection is given exactly when no site occurs in the link, because the site check comes first. The audio rejection is given exactly when the link names a site, the mode is audio, and neither YouTube name occurs. Otherwise there is no rejection. |
| Bot.DownloadDir | bot.py:73 | `downloads/<id>` is non-empty, has no trailing '/', and starts with `downloads/`. |
| Bot.DownloadDirsDistinct | bot.py:73 | Different chats get different download directories. |
| Bot.DeliverFile | bot.py:82-100 | The size branch computes `Deliver`, whose properties are `BotProperties.InlineCounts` and `BotProperties.UploadCounts`. |
| Bot.TryDownload | bot.py:69-102 | The `try` block computes `TryBlock` on the filesystem before the call and leaves the filesystem that attempt records. |
| Bot.CheckAndDeliver | bot.py:77-102 | After the adapter returns, the empty-path check, `getsize` and delivery compute `AfterDownload`. |
| Bot.Conclude | bot.py:103-113 | The `except` and `finally` clauses compute `Finish`, events and filesystem together. |
| Bot.ProcessLink | bot.py:40-113 | The handler's events and final filesystem are those of `Pipeline`, about which the lemmas below are stated. |
| BotProperties.CountWhereConcat | bot.py:67-113 | Counting events over a concatenated trace adds the counts of the two parts. |
| BotProperties.RejectedBeforeDownload | bot.py:47-65 | Each of these produces exactly one reply and leaves the filesystem unchanged: `/audio` without a link, a link naming no site, and an audio link naming a site other than YouTube. |
| BotProperties.DownloadCalledOnlyWhenAccepted | bot.py:45-75 | `download_media` is called once when the message passes every check and the status message is posted. Otherwise it is never called and the filesystem is unchanged. |
| BotProperties.InlineCounts | bot.py:83-90 | Below the limit there is no upload. There is one inline send and one terminal message, unless the send raised. |
| BotProperties.UploadCounts | bot.py:91-100 | At or above the limit the upload helper is called exactly once and nothing is sent inline. |
| BotProperties.DeliverCounts | bot.py:83-100 | The size branch as a whole: no upload below the limit and exactly one at or above it. At most one inline send, and one terminal message unless something raised. |
| BotProperties.StartedCounts | bot.py:71-75 | Before the adapter returns, the run has called `download_media` once and posted nothing terminal, sent nothing and uploaded nothing. |
| BotProperties.AfterDownloadCounts | bot.py:77-102 | The rest of the `try` block adds at most one send-or-upload, and at most one terminal message. |
| BotProperties.AcceptedRun | bot.py:67-113 | An accepted message whose status was posted runs the `try` block on what `download_media` did. |
| BotProperties.AttemptCounts | bot.py:69-102 | The `try` block calls the adapter exactly once and sends or uploads at most once. It posts one terminal message exactly when nothing raised. |
| BotProperties.ReportCounts | bot.py:103-109 | The `except` clause adds exactly one terminal message when something raised and none otherwise. |
| BotProperties.FinishCounts | bot.py:110-113 | The `finally` clause adds no terminal message, no send and no upload. |
| BotProperties.ExactlyOneOutcome | bot.py:40-113 | Every run, for every message, engine, listing and upload result, and for either status-reply or inline-send failure, ends in exactly one terminal message and never both sends inline and uploads. The transport calls at bot.py:85-102 other than the inline send are assumed to succeed. |
| BotProperties.SizeDecidesDelivery | bot.py:14-100 | With the strict comparison, a file below 49 MiB is sent inline as audio or video by mode and never uploaded. A file of exactly the limit or more is uploaded once and never sent inline. |
| BotProperties.UploadBranchRun | bot.py:91-113 | The upload branch yields the size status, one upload call, then the link, the upload-failure reply, or the error edit. The file is removed in every case. |
| BotProperties.InlineBranchRun | bot.py:83-90 | The inline branch yields the sending status, the file, and the status deleted, or the error edit. The file is removed. |
| BotProperties.LargeFileRun | bot.py:91-113 | The complete run for a large file. A falsy upload result is a reply, not an exception, and the file is gone afterwards. |
| BotProperties.SmallFileRun | bot.py:83-113 | The complete run for a small file, which is gone afterwards. |
| BotProperties.DownloadFailureRun | bot.py:75-113 | When the adapter raised, or gave an empty path or a path that is not a file, the status is edited with the error. Nothing is sent or uploaded, and nothing is removed. When the returned path is a directory, the `finally` clause's `os.remove` raises, recorded as a `CleanupRaised` event after the edit, and only then. |
| BotProperties.ErrorTextGoesToStatusIfAny | bot.py:103-109 | An error edits the status message exactly when it was posted, and is a new reply otherwise. |
| BotProperties.CleanupRemovesOnlyTheFile | bot.py:110-113 | The run ends with the filesystem the adapter left, less exactly the located file. Nothing at all is removed when no file was located. |
| BotProperties.PartialDownloadSurvives | bot.py:68-113 | When `download_media` raised, `file_path` stays unset, so files written by the failed download survive. |
| BotProperties.ShortYouTubeLinkAccepted | bot.py:45-65 | A `https://youtu.be/...` link passes the checks in both the video and the audio form. |
| BotProperties.SmallVideoScenario | bot.py:40-113 | A 10 MiB video from a short YouTube link gives exactly this trace: status, download, sending, video, status deleted. The file is then gone. |
| BotProperties.LargeAudioScenario | bot.py:40-113 | A 120 MiB `/audio` download is uploaded once, never sent inline, and removed. |
| BotProperties.NoSiteLetterNoSite | bot.py:55-59 | A link without the letters y, k, g, f and n names none of the seven sites. |
| BotProperties.UnsupportedDomainScenario | bot.py:55-61 | An `https://example.com/...` link with none of the letters y, k, g, f and n anywhere in it gets only the generic rejection. |
| BotProperties.AudioFromTikTokScenario | bot.py:59-65 | `/audio` with an `https://tiktok.com/...` link that contains no 'y' gets only the audio-restriction reply. |
| BotProperties.MissingIdScenario | utils.py:90-97 | Metadata without an id is reported on the status message. No file is written or removed. |

## Left out

- The Telegram transport is reduced to a trace of event tags: `Update` and `ContextTypes`, the reply, edit and delete calls, timeouts, async scheduling, the `/start` handler, and handler registration and polling in `main`. The transport splits command arguments, so `context.args` is an input. Handler routing is not modelled either: a text that starts with `/audio` is treated as an audio request however it arrived.
- Only two transport failures are modelled: the first status reply (bot.py:71) and the inline send (bot.py:88-90) raising. The status edits at bot.py:85 and bot.py:93, the replies at bot.py:98 and bot.py:100, and `status_message.delete()` at bot.py:102 are taken to succeed. Each of them lies inside the `try`, so a failure would be caught and reported like any other error. The error edit at bot.py:107 and the reply at bot.py:109 are taken to succeed too, because a failure there would leave the handler, and that propagation is not modelled.
- BotProperties.ExactlyOneOutcome: the one-terminal-message guarantee assumes that the transport calls at bot.py:85-102 other than the inline send succeed. In the code, a `delete()` at bot.py:102 that raises after the file or the link was posted leads to a second terminal message, the error edit at bot.py:107. The model cannot produce that run.
- `yt_dlp` is an oracle. The format strings and postprocessor settings are opaque constants, and metadata holds only string values.
- `upload_to_gofile` is imported by bot.py but is not part of this model. It is an oracle that returns an optional link or raises.
- Module-load side effects are not modelled: writing `cookies.txt` from an environment variable, reading `BOT_TOKEN`, and the logging set-up and every logging call. The cookie file's existence is read from the filesystem state.
- Utils.BuildOptions: the `'logger': logger` entry of the option map (utils.py:50) is not modelled, since it only routes the engine's log output.
- The human-readable texts are tags. The MiB figure in the upload status is kept as `size / 1024 / 1024`, but it is not printed.
- `os.listdir` is an unconstrained sequence. Nothing ties it to the directory's contents after the download, so every property holds for any listing, which over-approximates the real call. No ordering of it is claimed, only "first match in the given order".
- `os.makedirs` does not model parent directories. Only the download directory itself is tracked, and it fails only when a file occupies that path.
- Os.FileSystem.Size: `os.path.getsize` on a directory is modelled as raising. The real call returns an OS-dependent size for a directory. The handler then reports the path as not a file.
- Bot.Conclude: `os.remove` on a path that exists but is not a regular file raises out of the `finally` clause. The model records this as the `CleanupRaised` event and does not follow the exception further.
