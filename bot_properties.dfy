/**
  What `process_link` guarantees, stated about the function `Bot.Pipeline`
  that `Bot.ProcessLink` is proved to compute.
 */
module BotProperties {
  import opened Errors
  import opened Strings
  import opened Os
  import opened Utils
  import opened Bot

  /** The number of events of the trace that satisfy `f`. */
  function CountWhere(trace: seq<Event>, f: Event -> bool): (n: nat)
    ensures n <= |trace|
  {
    if trace == [] then 0 else (if f(trace[0]) then 1 else 0) + CountWhere(trace[1..], f)
  }

  lemma {:induction false} CountWhereConcat(a: seq<Event>, b: seq<Event>, f: Event -> bool)
    ensures CountWhere(a + b, f) == CountWhere(a, f) + CountWhere(b, f)
  {
    if a == [] {
      assert a + b == b;
    } else {
      assert (a + b)[1..] == a[1..] + b;
      CountWhereConcat(a[1..], b, f);
    }
  }

  /** A message that ends the conversation about the request: a rejection, the
      delivered file, the link or the upload failure, or an error report. The
      status messages are not terminal. */
  predicate IsTerminal(e: Event) {
    match e
    case Reply(n) => !n.Downloading?
    case EditStatus(n) => n.Failed?
    case SendAudio(_) => true
    case SendVideo(_) => true
    case _ => false
  }

  predicate IsInlineSend(e: Event) { e.SendAudio? || e.SendVideo? }
  predicate IsUpload(e: Event) { e.UploadCalled? }
  predicate IsDownloadCall(e: Event) { e.MediaRequested? }

  /** The message passes mode detection and both site checks. */
  predicate Accepted(m: Message) {
    var r := ParseRequest(m);
    r.Link? && Validate(r.isAudio, r.url).None?
  }

  /** What `download_media` does in the run for an accepted message. */
  function DownloadOf(st: FsState, m: Message, w: World): Downloaded
    requires Accepted(m)
  {
    var r := ParseRequest(m);
    DownloadMediaSpec(st, r.url, r.isAudio, DownloadDir(m.chatId), MaxFileSize, w.engine, w.listing)
  }

  /** The chat events produced before the adapter returns. */
  function Started(m: Message): seq<Event>
    requires Accepted(m)
  {
    var r := ParseRequest(m);
    [Reply(Downloading(r.isAudio)), MediaRequested(r.url, r.isAudio, DownloadDir(m.chatId))]
  }

  // ---- Rejections ----

  /** `/audio` without an argument, a link to no supported site, and an audio
      request for a non-YouTube site each produce exactly one reply and touch
      nothing; the site check comes first. */
  lemma RejectedBeforeDownload(st: FsState, m: Message, w: World)
    ensures ParseRequest(m).MissingLink? ==> Pipeline(st, m, w) == Run([Reply(AskForLink)], st)
    ensures var r := ParseRequest(m);
            r.Link? && !NamesSupportedSite(r.url) ==> Pipeline(st, m, w) == Run([Reply(UnsupportedSite)], st)
    ensures var r := ParseRequest(m);
            r.Link? && r.isAudio && NamesSupportedSite(r.url)
            && !Occurs(r.url, "youtube.com") && !Occurs(r.url, "youtu.be")
            ==> Pipeline(st, m, w) == Run([Reply(AudioOnlyYouTube)], st)
  {
  }

  /** `download_media` is called at most once, and exactly when the message is
      accepted and the status message could be posted. */
  lemma DownloadCalledOnlyWhenAccepted(st: FsState, m: Message, w: World)
    ensures CountWhere(Pipeline(st, m, w).trace, IsDownloadCall)
            == if Accepted(m) && !w.transport.statusFails then 1 else 0
    ensures !Accepted(m) || w.transport.statusFails ==> Pipeline(st, m, w).st == st
  {
    if Accepted(m) && !w.transport.statusFails {
      var a := TryBlock(st, ParseRequest(m).isAudio, ParseRequest(m).url, m.chatId, w);
      AttemptCounts(st, m, w);
      ReportCounts(a);
      FinishCounts(a);
    } else if Accepted(m) {
      var a := TryBlock(st, ParseRequest(m).isAudio, ParseRequest(m).url, m.chatId, w);
      assert Report(a) == [Reply(Failed(TransportFailure))];
    }
  }

  // ---- One terminal message; inline send or upload, never both ----

  /** The inline branch posts one terminal message when the send succeeds and
      none when it raised; it never uploads. */
  lemma InlineCounts(p: Path, size: nat, isAudio: bool, w: World)
    requires size < TelegramLimit
    ensures var s := Deliver(p, size, isAudio, w);
            && CountWhere(s.trace, IsTerminal) == (if s.raised.None? then 1 else 0)
            && CountWhere(s.trace, IsDownloadCall) == 0
            && CountWhere(s.trace, IsUpload) == 0
            && CountWhere(s.trace, IsInlineSend) == (if w.transport.sendFails then 0 else 1)
  {
    var s := Deliver(p, size, isAudio, w);
    if !w.transport.sendFails {
      assert s.trace[1..][1..][1..] == [];
    }
  }

  /** The upload branch calls the helper once, never sends inline, and posts one
      terminal message unless the helper raised. */
  lemma UploadCounts(p: Path, size: nat, isAudio: bool, w: World)
    requires size >= TelegramLimit
    ensures var s := Deliver(p, size, isAudio, w);
            && CountWhere(s.trace, IsTerminal) == (if s.raised.None? then 1 else 0)
            && CountWhere(s.trace, IsDownloadCall) == 0
            && CountWhere(s.trace, IsUpload) == 1
            && CountWhere(s.trace, IsInlineSend) == 0
  {
    var s := Deliver(p, size, isAudio, w);
    var announced := [EditStatus(Uploading(size / 1024 / 1024)), UploadCalled(p)];
    match w.upload
    case Raises(e) =>
    case Returns(link) =>
      var tail := [Reply(if LinkTruthy(link) then LinkReady(link.value) else UploadFailed), DeleteStatus];
      assert s.trace == announced + tail;
      CountWhereConcat(announced, tail, IsTerminal);
      CountWhereConcat(announced, tail, IsDownloadCall);
      CountWhereConcat(announced, tail, IsUpload);
      CountWhereConcat(announced, tail, IsInlineSend);
  }

  lemma DeliverCounts(p: Path, size: nat, isAudio: bool, w: World)
    ensures var s := Deliver(p, size, isAudio, w);
            && CountWhere(s.trace, IsTerminal) == (if s.raised.None? then 1 else 0)
            && CountWhere(s.trace, IsDownloadCall) == 0
            && CountWhere(s.trace, IsUpload) == (if size < TelegramLimit then 0 else 1)
            && CountWhere(s.trace, IsInlineSend) == (if size < TelegramLimit && !w.transport.sendFails then 1 else 0)
  {
    if size < TelegramLimit {
      InlineCounts(p, size, isAudio, w);
    } else {
      UploadCounts(p, size, isAudio, w);
    }
  }

  /** The rest of the `try` block, after events that hold one download call and
      nothing terminal, sent or uploaded. */
  lemma AfterDownloadCounts(started: seq<Event>, d: Downloaded, isAudio: bool, w: World)
    requires CountWhere(started, IsTerminal) == 0 && CountWhere(started, IsDownloadCall) == 1
    requires CountWhere(started, IsUpload) == 0 && CountWhere(started, IsInlineSend) == 0
    ensures var a := AfterDownload(started, d, isAudio, w);
            && a.statusShown
            && CountWhere(a.trace, IsTerminal) == (if a.raised.None? then 1 else 0)
            && CountWhere(a.trace, IsDownloadCall) == 1
            && CountWhere(a.trace, IsUpload) + CountWhere(a.trace, IsInlineSend) <= 1
  {
    if d.result.Ok? && d.result.value != "" && d.result.value in d.st.files {
      var p := d.result.value;
      var s := Deliver(p, d.st.files[p], isAudio, w);
      DeliverCounts(p, d.st.files[p], isAudio, w);
      CountWhereConcat(started, s.trace, IsTerminal);
      CountWhereConcat(started, s.trace, IsDownloadCall);
      CountWhereConcat(started, s.trace, IsUpload);
      CountWhereConcat(started, s.trace, IsInlineSend);
    }
  }

  /** An accepted message whose status message was posted runs the `try` block
      on what `download_media` did. */
  lemma AcceptedRun(st: FsState, m: Message, w: World)
    requires Accepted(m) && !w.transport.statusFails
    ensures TryBlock(st, ParseRequest(m).isAudio, ParseRequest(m).url, m.chatId, w)
            == AfterDownload(Started(m), DownloadOf(st, m, w), ParseRequest(m).isAudio, w)
    ensures Pipeline(st, m, w)
            == Finish(AfterDownload(Started(m), DownloadOf(st, m, w), ParseRequest(m).isAudio, w))
  {
  }

  /** The events before the adapter returns: one download call, nothing else counted. */
  lemma StartedCounts(m: Message)
    requires Accepted(m)
    ensures CountWhere(Started(m), IsTerminal) == 0 && CountWhere(Started(m), IsDownloadCall) == 1
    ensures CountWhere(Started(m), IsUpload) == 0 && CountWhere(Started(m), IsInlineSend) == 0
  {
    assert Started(m)[1..][1..] == [];
  }

  /** The `try` block of an accepted message whose status message was posted. */
  lemma AttemptCounts(st: FsState, m: Message, w: World)
    requires Accepted(m) && !w.transport.statusFails
    ensures var a := TryBlock(st, ParseRequest(m).isAudio, ParseRequest(m).url, m.chatId, w);
            && a.statusShown
            && CountWhere(a.trace, IsTerminal) == (if a.raised.None? then 1 else 0)
            && CountWhere(a.trace, IsDownloadCall) == 1
            && CountWhere(a.trace, IsUpload) + CountWhere(a.trace, IsInlineSend) <= 1
  {
    AcceptedRun(st, m, w);
    StartedCounts(m);
    AfterDownloadCounts(Started(m), DownloadOf(st, m, w), ParseRequest(m).isAudio, w);
  }

  lemma ReportCounts(a: Attempt)
    ensures CountWhere(Report(a), IsTerminal) == CountWhere(a.trace, IsTerminal) + (if a.raised.Some? then 1 else 0)
    ensures CountWhere(Report(a), IsDownloadCall) == CountWhere(a.trace, IsDownloadCall)
    ensures CountWhere(Report(a), IsUpload) == CountWhere(a.trace, IsUpload)
    ensures CountWhere(Report(a), IsInlineSend) == CountWhere(a.trace, IsInlineSend)
  {
    if a.raised.Some? {
      var last := [if a.statusShown then EditStatus(Failed(a.raised.value)) else Reply(Failed(a.raised.value))];
      CountWhereConcat(a.trace, last, IsTerminal);
      CountWhereConcat(a.trace, last, IsDownloadCall);
      CountWhereConcat(a.trace, last, IsUpload);
      CountWhereConcat(a.trace, last, IsInlineSend);
    }
  }

  lemma FinishCounts(a: Attempt)
    ensures CountWhere(Finish(a).trace, IsTerminal) == CountWhere(Report(a), IsTerminal)
    ensures CountWhere(Finish(a).trace, IsDownloadCall) == CountWhere(Report(a), IsDownloadCall)
    ensures CountWhere(Finish(a).trace, IsUpload) == CountWhere(Report(a), IsUpload)
    ensures CountWhere(Finish(a).trace, IsInlineSend) == CountWhere(Report(a), IsInlineSend)
  {
    if Finish(a).trace != Report(a) {
      var p := a.filePath.value;
      assert Finish(a).trace == Report(a) + [CleanupRaised(p)];
      CountWhereConcat(Report(a), [CleanupRaised(p)], IsTerminal);
      CountWhereConcat(Report(a), [CleanupRaised(p)], IsDownloadCall);
      CountWhereConcat(Report(a), [CleanupRaised(p)], IsUpload);
      CountWhereConcat(Report(a), [CleanupRaised(p)], IsInlineSend);
    }
  }

  /** Every run, whatever the message and the oracles, ends in exactly one
      terminal message, and never both sends the file inline and uploads it. */
  lemma ExactlyOneOutcome(st: FsState, m: Message, w: World)
    ensures CountWhere(Pipeline(st, m, w).trace, IsTerminal) == 1
    ensures CountWhere(Pipeline(st, m, w).trace, IsUpload) + CountWhere(Pipeline(st, m, w).trace, IsInlineSend) <= 1
  {
    if Accepted(m) {
      var a := TryBlock(st, ParseRequest(m).isAudio, ParseRequest(m).url, m.chatId, w);
      if !w.transport.statusFails {
        AttemptCounts(st, m, w);
      }
      ReportCounts(a);
      FinishCounts(a);
    }
  }

  // ---- The size branch ----

  /** A located file below the limit is sent inline, as audio or video by mode,
      and the upload helper is never called; a file of the limit or more is
      uploaded exactly once and never sent inline. */
  lemma SizeDecidesDelivery(st: FsState, m: Message, w: World)
    requires Accepted(m) && !w.transport.statusFails
    requires var d := DownloadOf(st, m, w);
             d.result.Ok? && d.result.value != "" && d.result.value in d.st.files
    ensures var d := DownloadOf(st, m, w);
            var p := d.result.value;
            var trace := Pipeline(st, m, w).trace;
            && (d.st.files[p] < TelegramLimit ==>
                  && CountWhere(trace, IsUpload) == 0
                  && CountWhere(trace, IsInlineSend) == (if w.transport.sendFails then 0 else 1)
                  && (!w.transport.sendFails ==>
                        (if ParseRequest(m).isAudio then SendAudio(p) else SendVideo(p)) in trace))
            && (d.st.files[p] >= TelegramLimit ==>
                  && CountWhere(trace, IsUpload) == 1
                  && UploadCalled(p) in trace
                  && CountWhere(trace, IsInlineSend) == 0)
  {
    var r := ParseRequest(m);
    var d := DownloadOf(st, m, w);
    var p := d.result.value;
    var started := Started(m);
    var a := TryBlock(st, r.isAudio, r.url, m.chatId, w);
    assert a == AfterDownload(started, d, r.isAudio, w);
    var s := Deliver(p, d.st.files[p], r.isAudio, w);
    assert a.trace == started + s.trace;
    DeliverCounts(p, d.st.files[p], r.isAudio, w);
    CountWhereConcat(started, s.trace, IsUpload);
    CountWhereConcat(started, s.trace, IsInlineSend);
    ReportCounts(a);
    FinishCounts(a);
    assert a.trace <= Report(a) && Report(a) <= Finish(a).trace;
    if d.st.files[p] < TelegramLimit && !w.transport.sendFails {
      assert s.trace[1] == (if r.isAudio then SendAudio(p) else SendVideo(p));
      assert Finish(a).trace[|started| + 1] == s.trace[1];
    } else if d.st.files[p] >= TelegramLimit {
      assert s.trace[1] == UploadCalled(p);
      assert Finish(a).trace[|started| + 1] == s.trace[1];
    }
  }

  /** The upload branch after any events `started`: the status edit with the
      size in MiB, one upload call, then the outcome; the file is removed. */
  lemma UploadBranchRun(started: seq<Event>, d: Downloaded, isAudio: bool, w: World)
    requires d.result.Ok? && d.result.value != "" && d.result.value in d.st.files
    requires d.st.files[d.result.value] >= TelegramLimit
    ensures var p := d.result.value;
            var announced := started + [EditStatus(Uploading(d.st.files[p] / 1024 / 1024)), UploadCalled(p)];
            var run := Finish(AfterDownload(started, d, isAudio, w));
            && run.st == d.st.(files := d.st.files - {p})
            && (w.upload.Raises? ==> run.trace == announced + [EditStatus(Failed(w.upload.error))])
            && (w.upload.Returns? && LinkTruthy(w.upload.value) ==>
                  run.trace == announced + [Reply(LinkReady(w.upload.value.value)), DeleteStatus])
            && (w.upload.Returns? && !LinkTruthy(w.upload.value) ==>
                  run.trace == announced + [Reply(UploadFailed), DeleteStatus])
  {
    var p := d.result.value;
    var head := [EditStatus(Uploading(d.st.files[p] / 1024 / 1024)), UploadCalled(p)];
    var a := AfterDownload(started, d, isAudio, w);
    var s := Deliver(p, d.st.files[p], isAudio, w);
    assert a.trace == started + s.trace;
    match w.upload
    case Raises(e) =>
      assert s.trace == head;
      assert Report(a) == started + head + [EditStatus(Failed(e))];
    case Returns(link) =>
      var tail := [Reply(if LinkTruthy(link) then LinkReady(link.value) else UploadFailed), DeleteStatus];
      assert s.trace == head + tail;
      assert Report(a) == started + (head + tail);
      assert Report(a) == started + head + tail;
  }

  /** The inline branch after any events `started`: the sending status, the
      audio or video, the status deleted, or the error edit when the send
      raised; the file is removed. */
  lemma InlineBranchRun(started: seq<Event>, d: Downloaded, isAudio: bool, w: World)
    requires d.result.Ok? && d.result.value != "" && d.result.value in d.st.files
    requires d.st.files[d.result.value] < TelegramLimit
    ensures var p := d.result.value;
            var run := Finish(AfterDownload(started, d, isAudio, w));
            && run.st == d.st.(files := d.st.files - {p})
            && (w.transport.sendFails ==>
                  run.trace == started + [EditStatus(Sending), EditStatus(Failed(TransportFailure))])
            && (!w.transport.sendFails ==>
                  run.trace == started + [EditStatus(Sending), if isAudio then SendAudio(p) else SendVideo(p),
                                          DeleteStatus])
  {
    var p := d.result.value;
    var a := AfterDownload(started, d, isAudio, w);
    var s := Deliver(p, d.st.files[p], isAudio, w);
    assert a.trace == started + s.trace;
    if w.transport.sendFails {
      assert Report(a) == started + [EditStatus(Sending)] + [EditStatus(Failed(TransportFailure))];
    }
  }

  /** For a file of the limit or more, the whole run: the status edit with the
      size in MiB, one upload call, then the link, or the upload-failure reply
      for a falsy result, or an error edit when the helper raised; the file is
      removed afterwards in every case. */
  lemma LargeFileRun(st: FsState, m: Message, w: World)
    requires Accepted(m) && !w.transport.statusFails
    requires var d := DownloadOf(st, m, w);
             d.result.Ok? && d.result.value != "" && d.result.value in d.st.files
             && d.st.files[d.result.value] >= TelegramLimit
    ensures var d := DownloadOf(st, m, w);
            var p := d.result.value;
            var announced := Started(m) + [EditStatus(Uploading(d.st.files[p] / 1024 / 1024)), UploadCalled(p)];
            var run := Pipeline(st, m, w);
            && run.st == d.st.(files := d.st.files - {p})
            && (w.upload.Raises? ==> run.trace == announced + [EditStatus(Failed(w.upload.error))])
            && (w.upload.Returns? && LinkTruthy(w.upload.value) ==>
                  run.trace == announced + [Reply(LinkReady(w.upload.value.value)), DeleteStatus])
            && (w.upload.Returns? && !LinkTruthy(w.upload.value) ==>
                  run.trace == announced + [Reply(UploadFailed), DeleteStatus])
  {
    AcceptedRun(st, m, w);
    UploadBranchRun(Started(m), DownloadOf(st, m, w), ParseRequest(m).isAudio, w);
  }

  /** For a file below the limit, the whole run: the sending status, the inline
      audio or video, the status deleted; or the error edit when the send
      raised; the file is removed afterwards in both cases. */
  lemma SmallFileRun(st: FsState, m: Message, w: World)
    requires Accepted(m) && !w.transport.statusFails
    requires var d := DownloadOf(st, m, w);
             d.result.Ok? && d.result.value != "" && d.result.value in d.st.files
             && d.st.files[d.result.value] < TelegramLimit
    ensures var d := DownloadOf(st, m, w);
            var p := d.result.value;
            var run := Pipeline(st, m, w);
            && run.st == d.st.(files := d.st.files - {p})
            && p !in run.st.files
            && (w.transport.sendFails ==>
                  run.trace == Started(m) + [EditStatus(Sending), EditStatus(Failed(TransportFailure))])
            && (!w.transport.sendFails ==>
                  run.trace == Started(m) + [EditStatus(Sending),
                                             if ParseRequest(m).isAudio then SendAudio(p) else SendVideo(p),
                                             DeleteStatus])
  {
    AcceptedRun(st, m, w);
    InlineBranchRun(Started(m), DownloadOf(st, m, w), ParseRequest(m).isAudio, w);
  }

  // ---- Failures and cleanup ----

  /** When the adapter raises, or returns an empty path or a path that is not a
      file, the error edits the status message, nothing is sent or uploaded,
      and the filesystem stays as the adapter left it: nothing is removed. */
  lemma DownloadFailureRun(st: FsState, m: Message, w: World)
    requires Accepted(m) && !w.transport.statusFails
    requires var d := DownloadOf(st, m, w);
             !(d.result.Ok? && d.result.value != "" && d.result.value in d.st.files)
    ensures var d := DownloadOf(st, m, w);
            var run := Pipeline(st, m, w);
            && run.st == d.st
            && (d.result.Err? ==> run.trace == Started(m) + [EditStatus(Failed(d.result.error))])
            && (d.result == Ok("") ==> run.trace == Started(m) + [EditStatus(Failed(NothingReturned))])
            && (d.result.Ok? && d.result.value != "" && d.result.value !in d.st.dirs ==>
                  run.trace == Started(m) + [EditStatus(Failed(NoSuchFile(d.result.value)))])
            && (d.result.Ok? && d.result.value != "" && d.result.value in d.st.dirs ==>
                  run.trace == Started(m) + [EditStatus(Failed(NoSuchFile(d.result.value))),
                                             CleanupRaised(d.result.value)])
  {
    var r := ParseRequest(m);
    var d := DownloadOf(st, m, w);
    AcceptedRun(st, m, w);
  }

  /** An error is reported by editing the status message exactly when the
      status message was posted, and by a new reply otherwise. */
  lemma ErrorTextGoesToStatusIfAny(st: FsState, m: Message, w: World)
    requires Accepted(m)
    ensures var a := TryBlock(st, ParseRequest(m).isAudio, ParseRequest(m).url, m.chatId, w);
            && (a.statusShown <==> !w.transport.statusFails)
            && (a.raised.Some? ==>
                  Report(a)[|Report(a)| - 1] ==
                    if w.transport.statusFails then Reply(Failed(a.raised.value))
                    else EditStatus(Failed(a.raised.value)))
  {
    if !w.transport.statusFails {
      var r := ParseRequest(m);
      assert TryBlock(st, r.isAudio, r.url, m.chatId, w)
             == AfterDownload(Started(m), DownloadOf(st, m, w), r.isAudio, w);
    }
  }

  /** The `finally` clause removes the located file, and only it: the run ends
      with the filesystem the adapter left, less that one file. */
  lemma CleanupRemovesOnlyTheFile(st: FsState, m: Message, w: World)
    requires Accepted(m) && !w.transport.statusFails
    ensures var d := DownloadOf(st, m, w);
            var run := Pipeline(st, m, w);
            && run.st.dirs == d.st.dirs
            && (d.result.Ok? && d.result.value != "" && d.result.value in d.st.files ==>
                  run.st.files == d.st.files - {d.result.value} && d.result.value !in run.st.files)
            && (!(d.result.Ok? && d.result.value != "" && d.result.value in d.st.files) ==>
                  run.st == d.st)
  {
    var r := ParseRequest(m);
    var d := DownloadOf(st, m, w);
    AcceptedRun(st, m, w);
  }

  /** Files the engine wrote before its download raised are not removed: the
      cleanup only ever names the path `download_media` returned. */
  lemma PartialDownloadSurvives(st: FsState, m: Message, w: World, q: Path)
    requires Accepted(m) && !w.transport.statusFails
    requires DownloadOf(st, m, w).result.Err?
    requires q in DownloadOf(st, m, w).st.files
    ensures q in Pipeline(st, m, w).st.files
  {
    CleanupRemovesOnlyTheFile(st, m, w);
  }

  // ---- Worked scenarios ----

  /** A plain link (not a command) starting with `https://youtu.be/` passes both
      site checks in either mode. */
  lemma ShortYouTubeLinkAccepted(url: string, chatId: int)
    requires StartsWith(url, "https://youtu.be/")
    ensures ParseRequest(Message(url, [], chatId)) == Link(false, url)
    ensures Accepted(Message(url, [], chatId))
    ensures Accepted(Message("/audio " + url, [url], chatId))
    ensures ParseRequest(Message("/audio " + url, [url], chatId)) == Link(true, url)
  {
    assert url[0] == 'h' && url[0] != AudioCommand[0];
    assert url[8..16] == url[..17][8..16] == "youtu.be";
    assert OccursAt(url, SupportedSites[1], 8);
    assert OccursAt(url, "youtu.be", 8);
    var text := "/audio " + url;
    assert text[..|AudioCommand|] == AudioCommand;
  }

  /** A YouTube short link in video mode, downloaded as a 10 MiB file: it is
      sent inline as video and then removed. */
  lemma SmallVideoScenario(st: FsState, url: string, chatId: int, w: World)
    requires StartsWith(url, "https://youtu.be/")
    requires !w.transport.statusFails && !w.transport.sendFails
    requires var d := DownloadMediaSpec(st, url, false, DownloadDir(chatId), MaxFileSize, w.engine, w.listing);
             d.result.Ok? && d.result.value != "" && d.result.value in d.st.files
             && d.st.files[d.result.value] == 10 * 1024 * 1024
    ensures var p := DownloadMediaSpec(st, url, false, DownloadDir(chatId), MaxFileSize, w.engine, w.listing).result.value;
            var run := Pipeline(st, Message(url, [], chatId), w);
            && run.trace == [Reply(Downloading(false)), MediaRequested(url, false, DownloadDir(chatId)),
                             EditStatus(Sending), SendVideo(p), DeleteStatus]
            && p !in run.st.files
  {
    ShortYouTubeLinkAccepted(url, chatId);
    SmallFileRun(st, Message(url, [], chatId), w);
  }

  /** `/audio` with a YouTube short link, downloaded as a 120 MiB file: the file
      is uploaded exactly once and never sent inline, then removed. */
  lemma LargeAudioScenario(st: FsState, url: string, chatId: int, w: World)
    requires StartsWith(url, "https://youtu.be/")
    requires !w.transport.statusFails
    requires var d := DownloadMediaSpec(st, url, true, DownloadDir(chatId), MaxFileSize, w.engine, w.listing);
             d.result.Ok? && d.result.value != "" && d.result.value in d.st.files
             && d.st.files[d.result.value] == 120 * 1024 * 1024
    ensures var p := DownloadMediaSpec(st, url, true, DownloadDir(chatId), MaxFileSize, w.engine, w.listing).result.value;
            var run := Pipeline(st, Message("/audio " + url, [url], chatId), w);
            && MediaRequested(url, true, DownloadDir(chatId)) in run.trace
            && CountWhere(run.trace, IsUpload) == 1 && UploadCalled(p) in run.trace
            && CountWhere(run.trace, IsInlineSend) == 0
            && p !in run.st.files
  {
    var m := Message("/audio " + url, [url], chatId);
    ShortYouTubeLinkAccepted(url, chatId);
    SizeDecidesDelivery(st, m, w);
    CleanupRemovesOnlyTheFile(st, m, w);
    assert Pipeline(st, m, w).trace[1] == MediaRequested(url, true, DownloadDir(chatId));
  }

  /** A link holding none of the letters y, k, g, f and n names none of the
      supported sites: each site name holds one of them. */
  lemma {:induction false} NoSiteLetterNoSite(url: string)
    requires 'y' !in url && 'k' !in url && 'g' !in url && 'f' !in url && 'n' !in url
    ensures !NamesSupportedSite(url)
  {
    forall k | 0 <= k < |SupportedSites|
      ensures !Contains(url, SupportedSites[k])
    {
      var c := if k <= 1 then 'y' else if k == 2 then 'k' else if k == 3 then 'g' else if k == 4 then 'f' else 'n';
      assert c in SupportedSites[k];
      AbsentCharNotContained(url, SupportedSites[k], c);
    }
    AnyContainsIff(url, SupportedSites);
    SiteCheckMeaning(url);
  }

  /** A link to `example.com` (with a path free of the letters above) is
      rejected with the generic reply and nothing else happens. */
  lemma UnsupportedDomainScenario(st: FsState, url: string, chatId: int, w: World)
    requires StartsWith(url, "https://example.com/")
    requires 'y' !in url && 'k' !in url && 'g' !in url && 'f' !in url && 'n' !in url
    ensures Pipeline(st, Message(url, [], chatId), w) == Run([Reply(UnsupportedSite)], st)
  {
    var m := Message(url, [], chatId);
    assert url[0] == 'h' && url[0] != AudioCommand[0];
    NoSiteLetterNoSite(url);
    RejectedBeforeDownload(st, m, w);
  }

  /** `/audio` with a TikTok link is rejected by the audio restriction. */
  lemma AudioFromTikTokScenario(st: FsState, url: string, chatId: int, w: World)
    requires StartsWith(url, "https://tiktok.com/") && 'y' !in url
    ensures Pipeline(st, Message("/audio " + url, [url], chatId), w) == Run([Reply(AudioOnlyYouTube)], st)
  {
    var text := "/audio " + url;
    assert text[..|AudioCommand|] == AudioCommand;
    assert url[8..18] == url[..19][8..18] == "tiktok.com";
    assert OccursAt(url, SupportedSites[2], 8);
    AbsentCharNotContained(url, "youtube.com", 'y');
    AbsentCharNotContained(url, "youtu.be", 'y');
    SiteCheckMeaning(url);
    RejectedBeforeDownload(st, Message(text, [url], chatId), w);
  }

  /** Metadata without an id: the error is reported on the status message and
      no file is left behind (the engine's download never ran). */
  lemma MissingIdScenario(st: FsState, m: Message, w: World, info: Metadata)
    requires Accepted(m) && !w.transport.statusFails
    requires DownloadDir(m.chatId) !in st.files
    requires info != map[] && "id" !in info
    requires var r := ParseRequest(m);
             var dir := DownloadDir(m.chatId);
             var opts := BuildOptions(r.isAudio, dir, Exists(st.(dirs := st.dirs + {dir}), CookieFile), MaxFileSize);
             w.engine.extractInfo(opts, r.url) == Returns(Some(info))
    ensures var run := Pipeline(st, m, w);
            && run.trace == Started(m) + [EditStatus(Failed(NoMediaId))]
            && run.st.files == st.files
  {
    assert DownloadOf(st, m, w).result == Err(NoMediaId);
    DownloadFailureRun(st, m, w);
  }
}
