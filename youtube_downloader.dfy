/**
 * The YouTube downloader: the options record handed to yt-dlp, and the progress hook
 * that yt-dlp calls for every item, which may convert a finished download to MP3 with
 * ffmpeg and then delete the original. yt-dlp and ffmpeg are oracles: a `ToolRun` says
 * which progress events yt-dlp reports and how each ffmpeg call ends.
 */
module YouTube {
  import opened Wrappers
  import opened Paths
  import opened Environment
  import opened Logging

  // `%(playlist_title)s/%(playlist_index)s - %(title)s.%(ext)s`, split after its first
  // character so that the verifier sees at once that the template is a relative path
  const OutputTemplate: string := "%" + "(playlist_title)s/%(playlist_index)s - %(title)s.%(ext)s"
  const AudioOnlyFormat: string := "bestaudio/best"
  const VideoAndAudioFormat: string := "bestvideo+bestaudio/best"

  /** The `ydl_opts` dictionary; `convertToMp3` is the flag the registered hook closes over. */
  datatype YdlOptions = YdlOptions(
    outtmpl: string,
    format: string,
    skipUnavailableFragments: bool,
    ignoreErrors: bool,
    convertToMp3: bool,
    noPlaylist: bool)

  /** The options `_download_from_youtube` builds. */
  function BuildOptions(path: string, keepAudioOnly: bool, isPlaylist: bool): (options: YdlOptions)
    ensures options.format == AudioOnlyFormat <==> keepAudioOnly
    ensures options.format in {AudioOnlyFormat, VideoAndAudioFormat}
    ensures options.skipUnavailableFragments && options.ignoreErrors
    ensures options.outtmpl == PathJoin(path, OutputTemplate)
    ensures path <= options.outtmpl && EndsWith(options.outtmpl, OutputTemplate)
    ensures options.convertToMp3 == keepAudioOnly
    ensures options.noPlaylist == isPlaylist
  {
    YdlOptions(
      outtmpl := PathJoin(path, OutputTemplate),
      format := if keepAudioOnly then AudioOnlyFormat else VideoAndAudioFormat,
      skipUnavailableFragments := true,
      ignoreErrors := true,
      convertToMp3 := keepAudioOnly,
      noPlaylist := isPlaylist)
  }

  /** The template is fixed: the playlist flag changes nothing but `noplaylist`. */
  lemma OptionsDifferOnlyInPlaylistFlag(path: string, keepAudioOnly: bool)
    ensures BuildOptions(path, keepAudioOnly, false).(noPlaylist := true) == BuildOptions(path, keepAudioOnly, true)
    ensures !BuildOptions(path, keepAudioOnly, false).noPlaylist
  {
  }

  /** The dictionary yt-dlp passes to a progress hook. */
  datatype ProgressEvent = ProgressEvent(status: string, filename: string)

  /** One call of the progress hook, with how ffmpeg would end if the hook runs it. */
  datatype ItemReport = ItemReport(event: ProgressEvent, transcode: CommandOutcome)

  /**
   * One `ydl.download([url])`: the hook calls in order, then, if the batch as a whole
   * fails, the text of the exception it raises.
   */
  datatype ToolRun = ToolRun(reports: seq<ItemReport>, failure: Option<string>)

  /** `filename.rsplit('.', 1)[0] + '.mp3'`. */
  function Mp3Name(filename: string): (output: string)
    ensures EndsWith(output, ".mp3")
  {
    RSplitOnce(filename, '.')[0] + ".mp3"
  }

  /** A name without a dot gets `.mp3` appended. */
  lemma Mp3NameWithoutDot(filename: string)
    requires '.' !in filename
    ensures Mp3Name(filename) == filename + ".mp3"
  {
  }

  /** With a dot, the text after the last dot is replaced by `mp3`. */
  lemma Mp3NameReplacesExtension(filename: string)
    requires '.' in filename
    ensures var parts := RSplitOnce(filename, '.');
      && filename == parts[0] + "." + parts[1]
      && Mp3Name(filename) == parts[0] + ".mp3"
  {
    RSplitOnceJoin(filename, '.');
  }

  /** A name that already ends in `.mp3` is its own output name. */
  lemma Mp3NameOfMp3(filename: string)
    requires EndsWith(filename, ".mp3")
    ensures Mp3Name(filename) == filename
  {
    var k := |filename| - 4;
    assert filename[k..] == ".mp3";
    assert filename[k] == '.';
    assert filename[k + 1..] == "mp3";
    assert '.' !in "mp3";
    LastIndexOfAt(filename, '.', k);
    assert filename == filename[..k] + ".mp3";
  }

  /** The output name equals the input exactly when the input already ends in `.mp3`. */
  lemma Mp3NameFixedPoint(filename: string)
    ensures Mp3Name(filename) == filename <==> EndsWith(filename, ".mp3")
  {
    if EndsWith(filename, ".mp3") {
      Mp3NameOfMp3(filename);
    }
  }

  /** Deriving the output name twice gives the same name as once. */
  lemma Mp3NameIdempotent(filename: string)
    ensures Mp3Name(Mp3Name(filename)) == Mp3Name(filename)
  {
    Mp3NameOfMp3(Mp3Name(filename));
  }

  /** A dot in a directory part is taken for the extension dot. */
  lemma Mp3NameDirectoryDot()
    ensures Mp3Name("./out/x") == ".mp3"
  {
    LastIndexOfAt("./out/x", '.', 0);
  }

  /** The ffmpeg command line of the conversion. */
  function FfmpegArgv(input: string, output: string): (argv: Argv)
    ensures |argv| == 13
    ensures argv[0] == "ffmpeg" && argv[1] == "-i" && argv[2] == input && argv[12] == output
    ensures argv[3..12] == ["-vn", "-ar", "44100", "-ac", "2", "-b:a", "320k", "-f", "mp3"]
  {
    var argv := ["ffmpeg", "-i", input, "-vn", "-ar", "44100", "-ac", "2", "-b:a", "320k", "-f", "mp3", output];
    assert argv[3..12] == ["-vn", "-ar", "44100", "-ac", "2", "-b:a", "320k", "-f", "mp3"];
    argv
  }

  /** The command names its files: different items give different command lines. */
  lemma FfmpegArgvInjective(input1: string, output1: string, input2: string, output2: string)
    requires FfmpegArgv(input1, output1) == FfmpegArgv(input2, output2)
    ensures input1 == input2 && output1 == output2
  {
    assert FfmpegArgv(input1, output1)[2] == input1;
    assert FfmpegArgv(input1, output1)[12] == output1;
  }

  /**
   * What one hook call does: the new filesystem, the messages it writes, the ffmpeg
   * command it runs, and whether an exception escapes it.
   */
  datatype HookResult = HookResult(fs: Fs, messages: seq<Record>, command: Option<Argv>, escaped: bool)

  /** The messages the hook writes. */
  function Downloaded(filename: string): Record { Record(Info, "Downloaded file: " + filename) }
  function Converting(filename: string): Record { Record(Debug, "Converting " + filename + " to MP3...") }
  function Converted(filename: string, output: string): Record { Record(Info, "Converted " + filename + " to MP3: " + output) }
  function Deleted(filename: string): Record { Record(Debug, "Deleted original file: " + filename) }
  function ConversionFailed(filename: string, error: string): Record { Record(Error, "Error converting " + filename + " to MP3: " + error) }

  /** `_progress_hook(d, convert_to_mp3)`. */
  function Hook(fs: Fs, event: ProgressEvent, convertToMp3: bool, transcode: CommandOutcome): (r: HookResult)
    ensures r.command.Some? <==> event.status == "finished" && convertToMp3
    ensures r.escaped ==> event.status == "finished" && convertToMp3
    ensures r.fs.dirs == fs.dirs
  {
    if event.status != "finished" then HookResult(fs, [], None, false)
    else if !convertToMp3 then HookResult(fs, [Downloaded(event.filename)], None, false)
    else
      var conversion := Convert(fs, event.filename, transcode);
      conversion.(messages := [Downloaded(event.filename)] + conversion.messages)
  }

  /** The `if convert_to_mp3:` block of the hook, from the conversion message on. */
  function Convert(fs: Fs, filename: string, transcode: CommandOutcome): (r: HookResult)
    ensures r.command == Some(FfmpegArgv(filename, Mp3Name(filename)))
    ensures r.messages != [] && r.messages[0] == Converting(filename)
    ensures r.escaped <==> transcode.NotFound? || (transcode.Completed? && filename !in fs.files && filename != Mp3Name(filename))
    ensures !transcode.Completed? ==> r.fs == fs
    ensures r.fs.dirs == fs.dirs
  {
    var output := Mp3Name(filename);
    var command := Some(FfmpegArgv(filename, output));
    match transcode
    case Completed =>
      var converted := WriteFile(fs, output);
      (match RemoveFrom(converted, filename)
       case Ok(removed) =>
         HookResult(removed, [Converting(filename)] + ([Converted(filename, output)] + [Deleted(filename)]), command, false)
       case Err(_) =>
         // os.remove raises FileNotFoundError, which the except clause does not catch
         HookResult(converted, [Converting(filename)] + [Converted(filename, output)], command, true))
    case NonZeroExit(message) =>
      HookResult(fs, [Converting(filename)] + [ConversionFailed(filename, message)], command, false)
    case NotFound =>
      // a missing ffmpeg raises FileNotFoundError, which the except clause does not catch
      HookResult(fs, [Converting(filename)], command, true)
  }

  /** Any status other than `finished`: no message, no command, no file change. */
  lemma HookIgnoresUnfinished(fs: Fs, event: ProgressEvent, convertToMp3: bool, transcode: CommandOutcome)
    requires event.status != "finished"
    ensures Hook(fs, event, convertToMp3, transcode) == HookResult(fs, [], None, false)
  {
  }

  /** Without conversion the hook only logs the file name: ffmpeg never runs, no file changes. */
  lemma HookWithoutConversion(fs: Fs, event: ProgressEvent, transcode: CommandOutcome)
    requires event.status == "finished"
    ensures var h := Hook(fs, event, false, transcode);
      && h.fs == fs && h.command.None? && !h.escaped
      && h.messages == [Downloaded(event.filename)]
  {
  }

  /** With conversion, each finished item runs ffmpeg exactly once, on its own name. */
  lemma HookRunsFfmpegOnce(fs: Fs, event: ProgressEvent, transcode: CommandOutcome)
    requires event.status == "finished"
    ensures Hook(fs, event, true, transcode).command == Some(FfmpegArgv(event.filename, Mp3Name(event.filename)))
  {
  }

  /**
   * After a successful conversion the MP3 file exists and the original does not, unless
   * the two names coincide: a download already named `.mp3` is deleted outright.
   */
  lemma HookSuccessReplacesOriginal(fs: Fs, event: ProgressEvent)
    requires event.status == "finished" && event.filename in fs.files
    ensures var h := Hook(fs, event, true, Completed);
      && !h.escaped
      && h.fs.files == (fs.files + {Mp3Name(event.filename)}) - {event.filename}
      && h.fs.dirs == fs.dirs
      && event.filename !in h.fs.files
      && (Mp3Name(event.filename) in h.fs.files <==> !EndsWith(event.filename, ".mp3"))
  {
    Mp3NameFixedPoint(event.filename);
  }

  /** A failed conversion keeps the original, creates nothing, logs an error and returns. */
  lemma HookFailureKeepsOriginal(fs: Fs, event: ProgressEvent, message: string)
    requires event.status == "finished"
    ensures var h := Hook(fs, event, true, NonZeroExit(message));
      && h.fs == fs && !h.escaped
      && h.messages[|h.messages| - 1] == ConversionFailed(event.filename, message)
  {
  }

  /** The hook touches no path other than the downloaded file and its MP3 name. */
  lemma HookTouchesOnlyItsFiles(fs: Fs, event: ProgressEvent, convertToMp3: bool, transcode: CommandOutcome, p: string)
    requires p != event.filename && p != Mp3Name(event.filename)
    ensures var h := Hook(fs, event, convertToMp3, transcode);
      (p in h.fs.files <==> p in fs.files) && h.fs.dirs == fs.dirs
  {
  }

  /** yt-dlp has written the file of a finished event by the time it calls the hook. */
  function Written(fs: Fs, event: ProgressEvent): Fs
  {
    if event.status == "finished" then WriteFile(fs, event.filename) else fs
  }

  datatype BatchResult = BatchResult(fs: Fs, messages: seq<Record>, commands: seq<Argv>)

  /**
   * The hook calls of one download, in order. With `ignoreerrors` set, an exception
   * escaping the hook is reported by yt-dlp itself and the next item follows.
   */
  function Batch(fs: Fs, convertToMp3: bool, reports: seq<ItemReport>): (r: BatchResult)
    ensures |r.commands| <= |reports|
  {
    if reports == [] then BatchResult(fs, [], [])
    else Extend(Batch(fs, convertToMp3, reports[..|reports| - 1]), convertToMp3, reports[|reports| - 1])
  }

  /** One more item: yt-dlp writes its file, if finished, then calls the hook. */
  function Extend(before: BatchResult, convertToMp3: bool, report: ItemReport): (r: BatchResult)
    ensures before.messages <= r.messages && before.commands <= r.commands
    ensures |r.commands| <= |before.commands| + 1
  {
    var h := Hook(Written(before.fs, report.event), report.event, convertToMp3, report.transcode);
    BatchResult(
      h.fs,
      before.messages + h.messages,
      before.commands + (if h.command.Some? then [h.command.value] else []))
  }

  /** The ffmpeg command lines of the finished items, in order. */
  function FinishedArgvs(reports: seq<ItemReport>): seq<Argv>
  {
    if reports == [] then []
    else
      var event := reports[|reports| - 1].event;
      FinishedArgvs(reports[..|reports| - 1])
        + (if event.status == "finished" then [FfmpegArgv(event.filename, Mp3Name(event.filename))] else [])
  }

  /** The names of the finished items. */
  function FinishedFiles(reports: seq<ItemReport>): set<string>
  {
    if reports == [] then {}
    else
      var event := reports[|reports| - 1].event;
      FinishedFiles(reports[..|reports| - 1]) + (if event.status == "finished" then {event.filename} else {})
  }

  /**
   * ffmpeg runs once per finished item, in order, whatever earlier conversions did,
   * and never when conversion is off.
   */
  lemma {:induction false} BatchCommands(fs: Fs, convertToMp3: bool, reports: seq<ItemReport>)
    ensures Batch(fs, convertToMp3, reports).commands == if convertToMp3 then FinishedArgvs(reports) else []
  {
    if reports != [] {
      BatchCommands(fs, convertToMp3, reports[..|reports| - 1]);
    }
  }

  /** Without conversion the hook neither adds nor removes a file: only the reported downloads appear. */
  lemma {:induction false} BatchKeepsDownloads(fs: Fs, reports: seq<ItemReport>)
    ensures Batch(fs, false, reports).fs == fs.(files := fs.files + FinishedFiles(reports))
  {
    if reports != [] {
      BatchKeepsDownloads(fs, reports[..|reports| - 1]);
    }
  }

  datatype FetchResult = FetchResult(fs: Fs, messages: seq<Record>, options: Option<YdlOptions>, commands: seq<Argv>)

  function DownloadError(url: string, error: string): Record
  {
    Record(Error, "Error downloading playlist: " + url + ", " + error)
  }

  /** `_download_from_youtube`: every exception is caught and logged as one error. */
  function Fetch(fs: Fs, url: string, path: string, keepAudioOnly: bool, isPlaylist: bool, run: ToolRun): (r: FetchResult)
    ensures r.messages != [] && r.messages[0] == Record(Debug, "Starting download for playlist: " + url)
    ensures r.options.Some? <==> MakeDirsOn(fs, path).Ok?
    ensures r.options.Some? ==> r.options.value == BuildOptions(path, keepAudioOnly, isPlaylist)
  {
    var starting := Record(Debug, "Starting download for playlist: " + url);
    match MakeDirsOn(fs, path)
    case Err(e) => FetchResult(fs, [starting] + [DownloadError(url, e)], None, [])
    case Ok(ready) =>
      var options := BuildOptions(path, keepAudioOnly, isPlaylist);
      var batch := Batch(ready, options.convertToMp3, run.reports);
      var messages := [starting] + batch.messages;
      var messages := if run.failure.Some? then messages + [DownloadError(url, run.failure.value)] else messages;
      FetchResult(batch.fs, messages, Some(options), batch.commands)
  }

  /**
   * A single video and a playlist are fetched alike: same files, messages and ffmpeg
   * commands, and options that differ only in `noplaylist`.
   */
  lemma VideoAndPlaylistAgree(fs: Fs, url: string, path: string, keepAudioOnly: bool, run: ToolRun)
    ensures var video := Fetch(fs, url, path, keepAudioOnly, false, run);
      var playlist := Fetch(fs, url, path, keepAudioOnly, true, run);
      && video.fs == playlist.fs && video.messages == playlist.messages && video.commands == playlist.commands
      && (video.options.Some? <==> playlist.options.Some?)
      && (video.options.Some? ==> video.options.value.(noPlaylist := true) == playlist.options.value)
  {
  }

  /**
   * A failure to create the directory or of the download as a whole ends in exactly one
   * logged error naming the URL; the call itself always returns.
   */
  lemma FetchFailuresAreLogged(fs: Fs, url: string, path: string, keepAudioOnly: bool, isPlaylist: bool, run: ToolRun)
    ensures var r := Fetch(fs, url, path, keepAudioOnly, isPlaylist, run);
      && (MakeDirsOn(fs, path).Err? ==>
            r.fs == fs && r.options.None? && r.commands == []
            && r.messages[1..] == [DownloadError(url, MakeDirsOn(fs, path).error)])
      && (MakeDirsOn(fs, path).Ok? && run.failure.Some? ==>
            r.messages[|r.messages| - 1] == DownloadError(url, run.failure.value))
      && (MakeDirsOn(fs, path).Ok? ==> path in r.fs.dirs && r.options.Some?)
  {
    if MakeDirsOn(fs, path).Ok? {
      BatchKeepsDirs(MakeDirsOn(fs, path).value, keepAudioOnly, run.reports);
    }
  }

  /** No hook call removes a directory. */
  lemma {:induction false} BatchKeepsDirs(fs: Fs, convertToMp3: bool, reports: seq<ItemReport>)
    ensures Batch(fs, convertToMp3, reports).fs.dirs == fs.dirs
  {
    if reports != [] {
      BatchKeepsDirs(fs, convertToMp3, reports[..|reports| - 1]);
    }
  }

  /** Without audio-only mode ffmpeg is never run; with it, once per finished item. */
  lemma FetchTranscodes(fs: Fs, url: string, path: string, keepAudioOnly: bool, isPlaylist: bool, run: ToolRun)
    ensures var r := Fetch(fs, url, path, keepAudioOnly, isPlaylist, run);
      && (!keepAudioOnly ==> r.commands == [])
      && (keepAudioOnly && MakeDirsOn(fs, path).Ok? ==> r.commands == FinishedArgvs(run.reports))
  {
    if MakeDirsOn(fs, path).Ok? {
      BatchCommands(MakeDirsOn(fs, path).value, keepAudioOnly, run.reports);
    }
  }

  /** The finished download of the scenarios below. */
  const Webm: string := "./out/1 - Title.webm"

  lemma Mp3NameOfWebm()
    ensures Mp3Name(Webm) == "./out/1 - Title.mp3"
  {
    LastIndexOfAt(Webm, '.', 15);
  }

  /**
   * A single audio-only video finishing as `./out/1 - Title.webm`: the directory is
   * created, ffmpeg writes `./out/1 - Title.mp3` and the `.webm` file is deleted.
   */
  lemma AudioOnlyScenario(fs: Fs)
    requires "./out" !in fs.files
    ensures var run := ToolRun([ItemReport(ProgressEvent("finished", Webm), Completed)], None);
      var r := Fetch(fs, "https://example/watch?v=abc", "./out", true, false, run);
      && r.options.Some? && r.options.value.format == "bestaudio/best"
      && "./out" in r.fs.dirs
      && r.commands == [FfmpegArgv(Webm, "./out/1 - Title.mp3")]
      && "./out/1 - Title.mp3" in r.fs.files && Webm !in r.fs.files
  {
    var report := ItemReport(ProgressEvent("finished", Webm), Completed);
    var ready := MakeDirsOn(fs, "./out").value;
    assert [report][..0] == [];
    Mp3NameOfWebm();
    var h := Hook(Written(ready, report.event), report.event, true, Completed);
    assert Batch(ready, true, [report]) == Extend(BatchResult(ready, [], []), true, report);
    assert h.fs.files == (ready.files + {Webm, "./out/1 - Title.mp3"}) - {Webm};
  }

  /** The same item in video mode: ffmpeg does not run and the hook leaves the `.webm` file in place. */
  lemma VideoScenario(fs: Fs)
    requires "./out" !in fs.files
    ensures var run := ToolRun([ItemReport(ProgressEvent("finished", Webm), Completed)], None);
      var r := Fetch(fs, "https://example/watch?v=abc", "./out", false, false, run);
      && r.options.Some? && r.options.value.format == "bestvideo+bestaudio/best"
      && r.commands == [] && Webm in r.fs.files
  {
    var report := ItemReport(ProgressEvent("finished", Webm), Completed);
    var ready := MakeDirsOn(fs, "./out").value;
    assert [report][..0] == [];
    assert Batch(ready, false, [report]) == Extend(BatchResult(ready, [], []), false, report);
  }

  class YouTubeDownloader {
    const logger: Logger

    constructor (logger: Logger)
      requires logger.Valid()
      modifies logger
      ensures this.logger == logger
      ensures logger.Valid() && logger.Logged([Record(Info, "YouTubeDownloader initialized.")])
    {
      this.logger := logger;
      logger.WriteInfo("YouTubeDownloader initialized.");
    }

    method DownloadVideo(url: string, path: string, keepAudioOnly: bool, fs: FileSystem, run: ToolRun)
      returns (options: Option<YdlOptions>, commands: seq<Argv>)
      requires logger.Valid()
      modifies logger, fs
      ensures var r := Fetch(old(fs.View()), url, path, keepAudioOnly, false, run);
        && fs.View() == r.fs && options == r.options && commands == r.commands
        && logger.Valid() && logger.Logged(r.messages)
        && logger.records == old(logger.records) + Filter(old(logger.debugLevel), r.messages)
    {
      options, commands := DownloadFromYouTube(url, path, keepAudioOnly, false, fs, run);
      logger.SinkReceived(Fetch(old(fs.View()), url, path, keepAudioOnly, false, run).messages);
    }

    method DownloadPlaylist(url: string, path: string, keepAudioOnly: bool, fs: FileSystem, run: ToolRun)
      returns (options: Option<YdlOptions>, commands: seq<Argv>)
      requires logger.Valid()
      modifies logger, fs
      ensures var r := Fetch(old(fs.View()), url, path, keepAudioOnly, true, run);
        && fs.View() == r.fs && options == r.options && commands == r.commands
        && logger.Valid() && logger.Logged(r.messages)
        && logger.records == old(logger.records) + Filter(old(logger.debugLevel), r.messages)
    {
      options, commands := DownloadFromYouTube(url, path, keepAudioOnly, true, fs, run);
      logger.SinkReceived(Fetch(old(fs.View()), url, path, keepAudioOnly, true, run).messages);
    }

    /** Returns the options handed to yt-dlp (none if it was never called) and the ffmpeg commands run. */
    method DownloadFromYouTube(url: string, path: string, keepAudioOnly: bool, isPlaylist: bool, fs: FileSystem, run: ToolRun)
      returns (options: Option<YdlOptions>, commands: seq<Argv>)
      requires logger.Valid()
      modifies logger, fs
      ensures var r := Fetch(old(fs.View()), url, path, keepAudioOnly, isPlaylist, run);
        && fs.View() == r.fs && options == r.options && commands == r.commands
        && logger.Valid() && logger.Logged(r.messages)
    {
      ghost var w := logger.written;
      var starting := Record(Debug, "Starting download for playlist: " + url);
      logger.WriteDebug(starting.message);
      var error := fs.MakeDirs(path);
      if error.Some? {
        logger.WriteError(DownloadError(url, error.value).message);
        Regroup(w, [starting], [DownloadError(url, error.value)]);
        options, commands := None, [];
        return;
      }
      var ydlOptions := BuildOptions(path, keepAudioOnly, isPlaylist);
      options := Some(ydlOptions);
      ghost var ready := fs.View();
      commands := RunDownloadTool(ydlOptions.convertToMp3, fs, run.reports);
      ghost var batch := Batch(ready, keepAudioOnly, run.reports);
      Regroup(w, [starting], batch.messages);
      if run.failure.Some? {
        logger.WriteError(DownloadError(url, run.failure.value).message);
        Regroup(w, [starting] + batch.messages, [DownloadError(url, run.failure.value)]);
      }
    }

    /**
     * `ydl.download([url])` as seen from this class: yt-dlp writes each finished file and
     * calls the progress hook for every report in turn.
     */
    method RunDownloadTool(convertToMp3: bool, fs: FileSystem, reports: seq<ItemReport>) returns (commands: seq<Argv>)
      requires logger.Valid()
      modifies logger, fs
      ensures var b := Batch(old(fs.View()), convertToMp3, reports);
        fs.View() == b.fs && logger.Valid() && logger.Logged(b.messages) && commands == b.commands
    {
      commands := [];
      ghost var start, w := fs.View(), logger.written;
      ghost var done := BatchResult(start, [], []);
      var i := 0;
      while i < |reports|
        invariant 0 <= i <= |reports|
        invariant done == Batch(start, convertToMp3, reports[..i])
        invariant fs.View() == done.fs && commands == done.commands
        invariant logger.Valid() && logger.Logged(done.messages)
      {
        var report := reports[i];
        var command := HandleItem(report, convertToMp3, fs);
        commands := commands + command;
        ghost var h := Hook(Written(done.fs, report.event), report.event, convertToMp3, report.transcode);
        Regroup(w, done.messages, h.messages);
        assert reports[..i + 1][..i] == reports[..i];
        done := Extend(done, convertToMp3, report);
        i := i + 1;
      }
      assert reports[..|reports|] == reports;
    }

    /** yt-dlp's handling of one item: the file is written if finished, then the hook runs. */
    method HandleItem(report: ItemReport, convertToMp3: bool, fs: FileSystem) returns (command: seq<Argv>)
      requires logger.Valid()
      modifies logger, fs
      ensures var h := Hook(Written(old(fs.View()), report.event), report.event, convertToMp3, report.transcode);
        && fs.View() == h.fs && command == (if h.command.Some? then [h.command.value] else [])
        && logger.Valid() && logger.Logged(h.messages)
    {
      if report.event.status == "finished" {
        fs.Write(report.event.filename);
      }
      var ran, escaped := ProgressHook(report.event, convertToMp3, fs, report.transcode);
      command := if ran.Some? then [ran.value] else [];
    }

    /** Returns the ffmpeg command it ran, and whether an exception escaped it. */
    method ProgressHook(event: ProgressEvent, convertToMp3: bool, fs: FileSystem, transcode: CommandOutcome)
      returns (command: Option<Argv>, escaped: bool)
      requires logger.Valid()
      modifies logger, fs
      ensures var h := Hook(old(fs.View()), event, convertToMp3, transcode);
        && fs.View() == h.fs && command == h.command && escaped == h.escaped
        && logger.Valid() && logger.Logged(h.messages)
    {
      command, escaped := None, false;
      if event.status == "finished" {
        ghost var w := logger.written;
        var filename := event.filename;
        logger.WriteInfo(Downloaded(filename).message);
        if convertToMp3 {
          command, escaped := ConvertToMp3(filename, fs, transcode);
          Regroup(w, [Downloaded(filename)], Convert(old(fs.View()), filename, transcode).messages);
        }
      }
    }

    /** The conversion block of the progress hook. */
    method ConvertToMp3(filename: string, fs: FileSystem, transcode: CommandOutcome)
      returns (command: Option<Argv>, escaped: bool)
      requires logger.Valid()
      modifies logger, fs
      ensures var c := Convert(old(fs.View()), filename, transcode);
        && fs.View() == c.fs && command == c.command && escaped == c.escaped
        && logger.Valid() && logger.Logged(c.messages)
    {
      escaped := false;
      ghost var w := logger.written;
      logger.WriteDebug(Converting(filename).message);
      var outputFilename := Mp3Name(filename);
      command := Some(FfmpegArgv(filename, outputFilename));
      match transcode
      case Completed =>
        fs.Write(outputFilename);
        escaped := ReplaceOriginal(filename, outputFilename, fs);
        Regroup(w, [Converting(filename)],
          if escaped then [Converted(filename, outputFilename)] else [Converted(filename, outputFilename)] + [Deleted(filename)]);
      case NonZeroExit(message) =>
        logger.WriteError(ConversionFailed(filename, message).message);
        Regroup(w, [Converting(filename)], [ConversionFailed(filename, message)]);
      case NotFound =>
        escaped := true;
    }

    /** After ffmpeg succeeded: log the conversion and delete the original; true if `os.remove` raised. */
    method ReplaceOriginal(filename: string, output: string, fs: FileSystem) returns (escaped: bool)
      requires logger.Valid()
      modifies logger, fs
      ensures escaped <==> filename !in old(fs.files)
      ensures match RemoveFrom(old(fs.View()), filename)
        case Ok(removed) => fs.View() == removed
        case Err(_) => fs.View() == old(fs.View())
      ensures logger.Valid()
      ensures logger.Logged(if escaped then [Converted(filename, output)] else [Converted(filename, output)] + [Deleted(filename)])
    {
      ghost var w := logger.written;
      logger.WriteInfo(Converted(filename, output).message);
      var error := fs.Remove(filename);
      escaped := error.Some?;
      if error.None? {
        logger.WriteDebug(Deleted(filename).message);
        Regroup(w, [Converted(filename, output)], [Deleted(filename)]);
      }
    }
  }
}
