/**
  Values shared by the download adapter and the bot: optional values, the
  exceptions the Python code raises (as tags), and the result of a call into a
  collaborator that may raise.
 */
module Errors {

  datatype Option<+T> = None | Some(value: T)

  /** The exceptions that travel through `download_media` and `process_link`.
      The human-readable texts are represented by their tags only. */
  datatype Error =
    | DownloadError(text: string)   // yt_dlp.utils.DownloadError raised by the engine
    | EngineFailure(text: string)   // any other exception raised by the engine
    | DirectoryBlocked(dir: string) // os.makedirs: a file already occupies the directory's path
    | NoInformation                 // the engine returned no usable metadata
    | NoMediaId                     // the metadata has no `id`
    | OutputNotFound(id: string)    // no file for the id after the download
    | FileTooLarge                  // the engine refused the file because of `max_filesize`
    | CannotDownload                // every other engine download error
    | NothingReturned               // download_media handed back an empty path
    | NoSuchFile(path: string)      // os.path.getsize on a path that is not a file
    | TransportFailure              // a Telegram reply or upload to the chat raised
    | UploadFailure(text: string)   // the hosting upload helper raised

  /** What a call into an external collaborator did: returned a value or raised. */
  datatype Call<+T> = Returns(value: T) | Raises(error: Error)

  datatype Result<+T> = Ok(value: T) | Err(error: Error)
}
