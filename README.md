# MediaGrab core, modelled in Dafny

MediaGrab downloads YouTube videos and playlists with yt-dlp. It optionally converts each
finished download to MP3 with ffmpeg and deletes the original. It can also fetch every track
of a Spotify playlist by searching YouTube for it, and it installs its own dependencies.
This project models the decision and string logic of four classes:

- `YouTubeDownloader` (module `YouTube`, `youtube_downloader.dfy`):
  - the yt-dlp options record and the catch-all around a download;
  - the progress hook: the MP3 name, the ffmpeg command line, and delete-on-success.
- `Logger` (module `Logging`, `logging.dfy`): five ordered levels, a class-wide threshold
  loaded from a JSON configuration, and the `write_*` threshold filter.
- `DependencyChecker` (module `Dependencies`, `dependency_checker.dfy`): the fixed check
  order, installs only after a failed check, the package-manager table of
  `_install_ffmpeg`, and the requirements-file guard.
- `SpotifyDownloader` (module `Spotify`, `spotify_downloader.dfy`): the first
  case-insensitive playlist match, and one `download_video` call per track.

Support modules:

- `Wrappers` holds `Option` and `Result`.
- `Paths` holds `str.rsplit('.', 1)`, `str.join` and POSIX `os.path.join`.
- `Environment` holds the filesystem (sets of file and directory paths) and the outcome of
  `subprocess.run(..., check=True)`.

The stateful code is modelled as classes whose methods change the state:

- The logger's sink is a sequence of records.
- The filesystem is a `FileSystem` object.
- The downloaders and the checker hold the logger they share.

Each method is proved against a pure function of its inputs and the old state:

- `Hook`, `Convert`, `Batch` and `Fetch` for the YouTube downloader;
- the `...Trace` functions for the dependency checker;
- `Step`, `Downloads` and `DownloadPlaylist` for the Spotify downloader.

The lemmas state the promised properties about those functions.

External tools are oracles that the caller supplies:

- A `ToolRun` lists the progress-hook calls yt-dlp makes, how each ffmpeg run ends, and
  whether the download as a whole raises.
- A `Host` gives `platform.system()`, the names `shutil.which` finds, whether `import
  yt_dlp` works, what `os.path.exists` sees, and how every command ends.
- A `Library` is the Spotify user's playlists and tracks.
- `lower` stands for `str.lower` and is left uninterpreted.

The logger keeps a ghost history of every record written (`written`). `Logged(ms)` says a
call wrote exactly `ms` and left the configuration alone. `Valid()` says the sink is what
it held when the configuration was last loaded, followed by the records written since then
that pass the current threshold.
`SinkReceived` turns the first into a statement about the sink. So every method's contract
gives both the messages it writes and the records that reach the sink.

Where the code differs from its own description, the model follows the code:

- `noplaylist` is `True` exactly for playlist downloads. This reads as inverted, but it is
  modelled as written.
- On an operating system other than Linux, Darwin and Windows, `_install_ffmpeg` still logs
  "Attempting to install ffmpeg..." before it finds nothing to do.
- `install_dependency('ffmpeg')` therefore logs that attempt twice.

## Model

| member | source | states |
|---|---|---|
| Paths.LastIndexOf | src/libs/youtube_downloader/YouTubeDownloader.py:171 | the position of the last occurrence of a character: none exactly when it does not occur; otherwise it is there and nowhere after |
| Paths.LastIndexOfAt | src/libs/youtube_downloader/YouTubeDownloader.py:171 | a position holding the character with none after it is the last occurrence |
| Paths.RSplitOnce | src/libs/youtube_downloader/YouTubeDownloader.py:171 | `rsplit(sep, 1)` gives one or two parts, two exactly when `sep` occurs; the last part has no `sep`; the first is a prefix of the input |
| Paths.RSplitOnceJoin | src/libs/youtube_downloader/YouTubeDownloader.py:171 | joining the parts of `rsplit(sep, 1)` with `sep` gives back the input |
| Paths.PathJoin | src/libs/youtube_downloader/YouTubeDownloader.py:126 | `os.path.join(a, b)` ends with `b`, is `b` when `b` is absolute, and starts with `a` otherwise |
| Environment.MakeDirsOn | src/libs/youtube_downloader/YouTubeDownloader.py:122 | `os.makedirs(path, exist_ok=True)` fails exactly on the empty path or an existing file; otherwise the directory exists and no file changes |
| Environment.RemoveFrom | src/libs/youtube_downloader/YouTubeDownloader.py:189 | `os.remove` succeeds exactly when the file exists, and removes only it |
| Environment.FileSystem.MakeDirs | src/libs/youtube_downloader/YouTubeDownloader.py:122 | the filesystem becomes what `MakeDirsOn` gives; the error is returned otherwise |
| Environment.FileSystem.Remove | src/libs/youtube_downloader/YouTubeDownloader.py:189 | the filesystem becomes what `RemoveFrom` gives; the error is returned otherwise |
| Logging.Filter | src/libs/common/Logger/Logger.py:112-194 | what the sink receives is never longer than what was written |
| Logging.FilterKeepsExactlyEmitted | src/libs/common/Logger/Logger.py:112-194 | a record reaches the sink if and only if it was written and its level is at or above the threshold |
| Logging.FilterAppend | src/libs/common/Logger/Logger.py:112-194 | filtering distributes over concatenation, so consecutive writes may be split anywhere |
| Logging.LevelsStrictlyOrdered | src/libs/common/Logger/Logger.py:18-24 | DEBUG 10 < INFO 20 < WARNING 30 < ERROR 40 < CRITICAL 50, following declaration order |
| Logging.Level.Value | src/libs/common/Logger/Logger.py:20-24 | the values are 10, 20, 30, 40 and 50 in declaration order |
| Logging.Emits | src/libs/common/Logger/Logger.py:112-193 | the `Logger.debug_level <= LoggerLevel.X.value` test: a threshold at or below 10 lets every level through, one above 50 none |
| Logging.EmitsMonotone | src/libs/common/Logger/Logger.py:112-194 | a threshold that lets a level through lets every higher level through |
| Logging.FilterExtremes | src/libs/common/Logger/Logger.py:112-194 | a threshold above 50 lets nothing through; one at or below 10 lets everything through |
| Logging.ReadErrorsGiveDefaults | src/libs/common/Logger/Logger.py:90-93 | a missing file or undecodable JSON gives level 10 and path `./logs/logFile.log` |
| Logging.MissingKeysGiveDefaults | src/libs/common/Logger/Logger.py:84-89 | a missing `debugConfig`, or one with neither key, gives both defaults; a missing `debugLevel` or `logFilePath` gives its own default and keeps the other setting, a boolean level counting as 1 or 0 |
| Logging.ReadConfiguration | src/libs/common/Logger/Logger.py:84-93 | only an unreadable file or a decoded document can raise; an unreadable file always does, and so does a document or a `debugConfig` that is not an object (`.get` raises AttributeError); settings of a type not followed arise only from a decoded document |
| Logging.ConfiguredSettingsAreLoaded | src/libs/common/Logger/Logger.py:86-89 | a `debugConfig` setting both keys, with a string path, is loaded as it stands: an integer level as is, a boolean one as 1 or 0; any other level type is not followed |
| Logging.Logger.constructor | src/libs/common/Logger/Logger.py:31-32 | the class attributes start at level 10 and path `logFile.log`, with an empty sink |
| Logging.Logger.SinkReceived | src/libs/common/Logger/Logger.py:112-194 | under an unchanged configuration, the sink grows by exactly the written records that pass the threshold |
| Logging.Logger.LoadConfiguration | src/libs/common/Logger/Logger.py:68-93 | the threshold and path become the loaded settings, or stay when an exception escapes; the sink is untouched |
| Logging.Logger.Write | src/libs/common/Logger/Logger.py:112-194 | one record is written; it reaches the sink if and only if `debug_level <= level`; the configuration is unchanged |
| Logging.Logger.WriteDebug | src/libs/common/Logger/Logger.py:112-113 | emits iff `debug_level <= 10`; the configuration is unchanged |
| Logging.Logger.WriteInfo | src/libs/common/Logger/Logger.py:133-134 | emits iff `debug_level <= 20`; the configuration is unchanged |
| Logging.Logger.WriteWarning | src/libs/common/Logger/Logger.py:153-154 | emits iff `debug_level <= 30`; the configuration is unchanged |
| Logging.Logger.WriteError | src/libs/common/Logger/Logger.py:173-174 | emits iff `debug_level <= 40`; the configuration is unchanged |
| Logging.Logger.WriteCritical | src/libs/common/Logger/Logger.py:193-194 | emits iff `debug_level <= 50`; the configuration is unchanged |
| Logging.Logger.GetDebugLevel | src/libs/common/Logger/Logger.py:196-212 | returns the class-wide threshold, which only `LoadConfiguration` changes: every write keeps it |
| YouTube.BuildOptions | src/libs/youtube_downloader/YouTubeDownloader.py:125-133 | `outtmpl` is `os.path.join(path, template)`, so it starts with `path` and ends with the template; format is `bestaudio/best` exactly when audio only, else `bestvideo+bestaudio/best`; both fault-tolerance flags on; `noplaylist` equals `isPlaylist` |
| YouTube.OptionsDifferOnlyInPlaylistFlag | src/libs/youtube_downloader/YouTubeDownloader.py:123-133 | the two values of `isPlaylist` give options that differ in `noplaylist` alone |
| YouTube.Mp3Name | src/libs/youtube_downloader/YouTubeDownloader.py:171 | the output name always ends in `.mp3` |
| YouTube.Mp3NameWithoutDot | src/libs/youtube_downloader/YouTubeDownloader.py:171 | a name without a dot gets `.mp3` appended |
| YouTube.Mp3NameReplacesExtension | src/libs/youtube_downloader/YouTubeDownloader.py:171 | with a dot, the name is `stem.ext` and the output is `stem.mp3`, with `ext` the text after the last dot |
| YouTube.Mp3NameOfMp3 | src/libs/youtube_downloader/YouTubeDownloader.py:171 | a name already ending in `.mp3` is unchanged |
| YouTube.Mp3NameFixedPoint | src/libs/youtube_downloader/YouTubeDownloader.py:171 | the output equals the input if and only if the input ends in `.mp3` |
| YouTube.Mp3NameIdempotent | src/libs/youtube_downloader/YouTubeDownloader.py:171 | deriving the name twice is the same as once |
| YouTube.Mp3NameDirectoryDot | src/libs/youtube_downloader/YouTubeDownloader.py:171 | a dot in a directory part is taken for the extension: `./out/x` gives `.mp3` |
| YouTube.FfmpegArgv | src/libs/youtube_downloader/YouTubeDownloader.py:175-185 | 13 elements: `ffmpeg -i <input>`, then the fixed audio options, then the output last |
| YouTube.FfmpegArgvInjective | src/libs/youtube_downloader/YouTubeDownloader.py:175-185 | equal command lines name the same input and output |
| YouTube.HookIgnoresUnfinished | src/libs/youtube_downloader/YouTubeDownloader.py:162 | a status other than `finished` gives no message, no command and no file change |
| YouTube.HookWithoutConversion | src/libs/youtube_downloader/YouTubeDownloader.py:162-167 | without conversion only "Downloaded file" is logged; ffmpeg never runs and no file changes |
| YouTube.HookRunsFfmpegOnce | src/libs/youtube_downloader/YouTubeDownloader.py:167-185 | with conversion, a finished item runs exactly the ffmpeg command for its own name |
| YouTube.HookSuccessReplacesOriginal | src/libs/youtube_downloader/YouTubeDownloader.py:185-190 | after ffmpeg succeeds the MP3 exists and the original is gone; the MP3 survives if and only if the original was not already named `.mp3` |
| YouTube.HookFailureKeepsOriginal | src/libs/youtube_downloader/YouTubeDownloader.py:192-193 | a failing ffmpeg keeps every file, ends with the logged error, and returns normally |
| YouTube.HookTouchesOnlyItsFiles | src/libs/youtube_downloader/YouTubeDownloader.py:162-193 | no path other than the download and its MP3 name changes, and no directory |
| YouTube.Hook | src/libs/youtube_downloader/YouTubeDownloader.py:162-193 | ffmpeg runs exactly for a finished item with conversion on; only then can an exception escape; no directory changes |
| YouTube.Convert | src/libs/youtube_downloader/YouTubeDownloader.py:166-193 | runs the ffmpeg command for the item's own MP3 name after logging the conversion; an exception escapes exactly when ffmpeg is missing, or when it succeeded and the original was never there; a failing ffmpeg changes no file |
| YouTube.Extend | src/libs/youtube_downloader/YouTubeDownloader.py:128-130 | one more item only appends messages and at most one ffmpeg command |
| YouTube.Batch | src/libs/youtube_downloader/YouTubeDownloader.py:128-138 | a download runs ffmpeg at most once per reported item |
| YouTube.BatchCommands | src/libs/youtube_downloader/YouTubeDownloader.py:128-138 | over a whole download, ffmpeg runs once per finished item in order, and never when conversion is off |
| YouTube.BatchKeepsDownloads | src/libs/youtube_downloader/YouTubeDownloader.py:128-138 | without conversion the hook adds and removes no file: the files are the starting ones plus those yt-dlp reports finished |
| YouTube.BatchKeepsDirs | src/libs/youtube_downloader/YouTubeDownloader.py:128-138 | no hook call removes a directory |
| YouTube.VideoAndPlaylistAgree | src/libs/youtube_downloader/YouTubeDownloader.py:77-98 | a video and a playlist download give the same files, messages and commands, with options differing only in `noplaylist` |
| YouTube.FetchFailuresAreLogged | src/libs/youtube_downloader/YouTubeDownloader.py:120-141 | a failing `makedirs` or download ends in one logged error naming the URL; the call returns normally; after `makedirs` succeeds the directory exists |
| YouTube.FetchTranscodes | src/libs/youtube_downloader/YouTubeDownloader.py:125-138 | in video mode ffmpeg never runs; in audio-only mode it runs once per finished item |
| YouTube.Fetch | src/libs/youtube_downloader/YouTubeDownloader.py:120-141 | the first message announces the URL; yt-dlp is given options exactly when the directory could be created, and they are those `BuildOptions` gives |
| YouTube.AudioOnlyScenario | src/libs/youtube_downloader/YouTubeDownloader.py:120-190 | an audio-only download of `./out/1 - Title.webm` leaves `./out/1 - Title.mp3`, deletes the `.webm` and runs one ffmpeg command |
| YouTube.VideoScenario | src/libs/youtube_downloader/YouTubeDownloader.py:120-167 | the same item in video mode runs no ffmpeg and the hook leaves the reported `.webm` in place |
| YouTube.YouTubeDownloader.constructor | src/libs/youtube_downloader/YouTubeDownloader.py:55-56 | keeps the logger and writes "YouTubeDownloader initialized." |
| YouTube.YouTubeDownloader.DownloadVideo | src/libs/youtube_downloader/YouTubeDownloader.py:77 | does what `_download_from_youtube` does with `isPlaylist` false, and the sink receives the filtered messages |
| YouTube.YouTubeDownloader.DownloadPlaylist | src/libs/youtube_downloader/YouTubeDownloader.py:98 | does what `_download_from_youtube` does with `isPlaylist` true, and the sink receives the filtered messages |
| YouTube.YouTubeDownloader.DownloadFromYouTube | src/libs/youtube_downloader/YouTubeDownloader.py:120-141 | the filesystem, messages, options and ffmpeg commands are those of `Fetch`; nothing escapes |
| YouTube.YouTubeDownloader.RunDownloadTool | src/libs/youtube_downloader/YouTubeDownloader.py:137-138 | handles every hook call in order, ending in the state `Batch` describes |
| YouTube.YouTubeDownloader.HandleItem | src/libs/youtube_downloader/YouTubeDownloader.py:128-130 | writes the finished file, then runs the hook, as `Extend` describes |
| YouTube.YouTubeDownloader.ProgressHook | src/libs/youtube_downloader/YouTubeDownloader.py:160-193 | the filesystem, messages, command and escaping exception are those of `Hook` |
| YouTube.YouTubeDownloader.ConvertToMp3 | src/libs/youtube_downloader/YouTubeDownloader.py:166-193 | the filesystem, messages, command and escaping exception are those of `Convert` |
| YouTube.YouTubeDownloader.ReplaceOriginal | src/libs/youtube_downloader/YouTubeDownloader.py:186-190 | logs the conversion, then removes the original and logs it; when the original is missing, `os.remove` raises |
| Dependencies.Then | src/libs/dependency_checker/DependencyChecker.py:70-74 | an exception raised by one step skips the rest; otherwise the messages and commands of both steps follow in order, and the second step's exception is the result's |
| Dependencies.RunCheckedTrace | src/libs/dependency_checker/DependencyChecker.py:155 | `subprocess.run(check=True)` runs its one command; on completion the success messages follow; a non-zero exit raises CalledProcessError with its text, a missing executable FileNotFoundError, both with nothing logged |
| Dependencies.CatchCalledProcess | src/libs/dependency_checker/DependencyChecker.py:159-160 | a CalledProcessError is caught and logged as one error, `prefix` followed by its text, and nothing else changes; a FileNotFoundError passes through |
| Dependencies.SelectFfmpegInstaller | src/libs/dependency_checker/DependencyChecker.py:180-212 | a chosen package manager is always one that `shutil.which` found |
| Dependencies.InstallerAvailability | src/libs/dependency_checker/DependencyChecker.py:180-212 | a command is chosen if and only if the system's own manager is on the PATH; an unknown system gives neither a command nor a warning |
| Dependencies.LinuxPriority | src/libs/dependency_checker/DependencyChecker.py:180-191 | on Linux the first of apt, yum and pacman on the PATH is used |
| Dependencies.OneManagerPerOtherSystem | src/libs/dependency_checker/DependencyChecker.py:193-212 | Darwin only uses brew and Windows only uses choco |
| Dependencies.InstallFfmpegRunsAtMostOne | src/libs/dependency_checker/DependencyChecker.py:177-212 | at most one command runs, exactly when a manager was chosen, and the attempt is logged first |
| Dependencies.InstallFfmpegWithoutManager | src/libs/dependency_checker/DependencyChecker.py:190-212 | without a manager only the attempt and a warning are logged; on an unknown system only the attempt |
| Dependencies.InstallDependencyCatches | src/libs/dependency_checker/DependencyChecker.py:151-160 | no CalledProcessError leaves `install_dependency`, and the attempt is logged first |
| Dependencies.InstallDependencyReportsFailure | src/libs/dependency_checker/DependencyChecker.py:155-160 | a failing pip install of yt-dlp logs "Failed to install yt-dlp: " followed by the error |
| Dependencies.InstallFfmpegReportsFailure | src/libs/dependency_checker/DependencyChecker.py:151-160 | a failing package-manager command under `install_dependency('ffmpeg')` logs both attempt lines, then "Failed to install ffmpeg: " followed by the error, and nothing escapes |
| Dependencies.UnknownDependency | src/libs/dependency_checker/DependencyChecker.py:89-92 | other names are not checked, and installing them only logs the attempt |
| Dependencies.InstallOnlyWhenCheckFails | src/libs/dependency_checker/DependencyChecker.py:109-136 | an importable yt-dlp or a working `ffmpeg --version` leads to no install; a failed check leads to the install |
| Dependencies.MissingRequirementsFile | src/libs/dependency_checker/DependencyChecker.py:229-231 | a requirements file that does not exist logs an error and runs no pip command |
| Dependencies.CheckOrder | src/libs/dependency_checker/DependencyChecker.py:70-74 | yt-dlp is checked before ffmpeg; the requirements are installed last, only for a truthy path |
| Dependencies.InstallFfmpegTrace | src/libs/dependency_checker/DependencyChecker.py:177-212 | at most one command runs, and an exception can only come from it |
| Dependencies.InstallDependencyTrace | src/libs/dependency_checker/DependencyChecker.py:151-160 | at most one command runs, and only a FileNotFoundError can escape |
| Dependencies.CheckYtDlpTrace | src/libs/dependency_checker/DependencyChecker.py:109-114 | an importable yt-dlp runs nothing and raises nothing; otherwise exactly the pip install of yt-dlp runs; only a FileNotFoundError can escape |
| Dependencies.CheckFfmpegTrace | src/libs/dependency_checker/DependencyChecker.py:131-136 | `ffmpeg --version` runs first; when it works nothing else runs and nothing is raised; at most one install follows; only a FileNotFoundError can escape |
| Dependencies.CheckDependencyTrace | src/libs/dependency_checker/DependencyChecker.py:89-92 | at most two commands run, and only a FileNotFoundError can escape |
| Dependencies.InstallRequirementsTrace | src/libs/dependency_checker/DependencyChecker.py:229-239 | pip runs exactly when the requirements path exists, and then only `pip install -r path`; only a FileNotFoundError can escape |
| Dependencies.CheckDependenciesTrace | src/libs/dependency_checker/DependencyChecker.py:70-74 | at most four commands run in all (the pip install of yt-dlp, `ffmpeg --version`, one package-manager install, `pip install -r`), and only a FileNotFoundError escapes `check_dependencies` |
| Dependencies.DependencyChecker.constructor | src/libs/dependency_checker/DependencyChecker.py:51-53 | keeps the logger and path and writes "DependencyChecker initialized." |
| Dependencies.DependencyChecker.CheckDependencies | src/libs/dependency_checker/DependencyChecker.py:70-74 | the commands, messages and escaping exception are those of `CheckDependenciesTrace` |
| Dependencies.DependencyChecker.CheckDependency | src/libs/dependency_checker/DependencyChecker.py:89-92 | as `CheckDependencyTrace` |
| Dependencies.DependencyChecker.CheckYtDlp | src/libs/dependency_checker/DependencyChecker.py:109-114 | as `CheckYtDlpTrace` |
| Dependencies.DependencyChecker.CheckFfmpeg | src/libs/dependency_checker/DependencyChecker.py:131-136 | as `CheckFfmpegTrace` |
| Dependencies.DependencyChecker.InstallDependency | src/libs/dependency_checker/DependencyChecker.py:151-160 | as `InstallDependencyTrace` |
| Dependencies.DependencyChecker.InstallFfmpeg | src/libs/dependency_checker/DependencyChecker.py:177-212 | as `InstallFfmpegTrace`: the selected command, or the warning |
| Dependencies.DependencyChecker.RunInstaller | src/libs/dependency_checker/DependencyChecker.py:182-183 | runs the install command and logs success only when it completed |
| Dependencies.DependencyChecker.RunChecked | src/libs/dependency_checker/DependencyChecker.py:155 | reports the command and the exception `subprocess.run(check=True)` raises |
| Dependencies.DependencyChecker.InstallRequirements | src/libs/dependency_checker/DependencyChecker.py:229-239 | as `InstallRequirementsTrace` |
| Spotify.FirstMatch | src/libs/spotify_downloader/SpotifyDownloader.py:25-28 | the first playlist whose lower-cased name equals the lower-cased request, with no match before it; none when nothing matches |
| Spotify.FirstMatchWins | src/libs/spotify_downloader/SpotifyDownloader.py:25-28 | any matching playlist is at or after the chosen one, so later matches are ignored |
| Spotify.SearchUrl | src/libs/spotify_downloader/SpotifyDownloader.py:38-40 | the `ytsearch:` query for a track is as long as the prefix, its name, a space and its first artist |
| Spotify.SearchUrlParts | src/libs/spotify_downloader/SpotifyDownloader.py:38-48 | the query reads back as `ytsearch:`, the track name, a space and the first artist's name |
| Spotify.NoMatchNoDownloads | src/libs/spotify_downloader/SpotifyDownloader.py:30-32 | with no match, one error is logged and nothing is fetched, created or downloaded |
| Spotify.StepCalls | src/libs/spotify_downloader/SpotifyDownloader.py:36-51 | one pass adds the call for its track, or raises and adds nothing |
| Spotify.CallsFollowTracks | src/libs/spotify_downloader/SpotifyDownloader.py:36-51 | one call per track in track order, url `ytsearch:<name> <first artist>`, path `join(download_path, playlist_name)` with the name as given, audio only; a complete run makes exactly one call per track |
| Spotify.CallsStep | src/libs/spotify_downloader/SpotifyDownloader.py:36-51 | calls that follow the tracks still do after one more pass of the loop |
| Spotify.RaisedIsFinal | src/libs/spotify_downloader/SpotifyDownloader.py:36-51 | once a track raises, later tracks change nothing |
| Spotify.Step | src/libs/spotify_downloader/SpotifyDownloader.py:37-51 | after an exception a pass changes nothing; otherwise it adds at most one call, and exactly one when nothing is raised |
| Spotify.Downloads | src/libs/spotify_downloader/SpotifyDownloader.py:36-51 | never more calls than tracks, and exactly one per track when no exception escapes |
| Spotify.DownloadPlaylist | src/libs/spotify_downloader/SpotifyDownloader.py:21-51 | without a match, or when the first match has an empty id, only the not-found error is logged and nothing else happens; otherwise the result is the track loop over the tracks of the first matching playlist |
| Spotify.SpotifyDownloader.constructor | src/libs/spotify_downloader/SpotifyDownloader.py:17-19 | shares the logger with a new YouTube downloader, which logs its initialisation |
| Spotify.SpotifyDownloader.FindPlaylistId | src/libs/spotify_downloader/SpotifyDownloader.py:24-28 | the loop with `break` finds the id of `FirstMatch`, or none |
| Spotify.SpotifyDownloader.DownloadPlaylistFromSpotify | src/libs/spotify_downloader/SpotifyDownloader.py:21-51 | the filesystem, messages, calls and escaping exception are those of `DownloadPlaylist` |
| Spotify.SpotifyDownloader.DownloadTracks | src/libs/spotify_downloader/SpotifyDownloader.py:35-51 | the track loop ends in the state `Downloads` describes |
| Spotify.SpotifyDownloader.DownloadTrack | src/libs/spotify_downloader/SpotifyDownloader.py:37-51 | one pass of the loop, as `Step` describes |

## Left out

- yt-dlp itself (network, formats, fragments, template expansion) is an oracle, a `ToolRun`.
  - When an exception escapes the progress hook, the model assumes yt-dlp reports it and
    goes on with the next item.
  - If yt-dlp instead aborts the download, the oracle lists no later items and supplies the
    failure text.
- yt-dlp's own file changes after its hook calls are not modelled, such as merging the
  separately downloaded video and audio parts in video mode and deleting those parts. The
  only file effect of a `ToolRun` is adding each file it reports finished. So
  `YouTube.BatchKeepsDownloads` and `YouTube.VideoScenario` speak about what the hook does
  to the files, not about what a video-mode download finally leaves on disk.
- ffmpeg's transcoding is an oracle: success, a non-zero exit (its error text) or a missing
  executable. An output file left behind by a failed run is not modelled.
- `subprocess`, `shutil.which`, `platform.system`, `import yt_dlp` and `os.path.exists` are
  inputs (`Host`). The text of a CalledProcessError is the oracle's string.
- `os.makedirs` creates only the named directory, not its parents. Its error texts are the
  usual `[Errno 2]` and `[Errno 17]` messages.
- `os.path.join` is the POSIX version; Windows path rules are not modelled.
- Logging.Logger.LoadConfiguration: when `debugLevel` is not a JSON integer or boolean, or
  `logFilePath` is not a JSON string, the contract says nothing about the new settings.
  - The source stores such values as they are.
  - A non-numeric level would make later writes raise.
- Dependencies.DependencyChecker.InstallRequirements: requires a path to be set.
  - With `None`, `os.path.exists` would raise a TypeError, which is not modelled.
  - `check_dependencies` only calls it with a truthy path.
- Parsing JSON is left out. The configuration is a decoded JSON value, or one of the ways
  opening or decoding it fails.
- Python `logging` internals are left out: `basicConfig`, formats, timestamps and
  `stacklevel`. The sink is the sequence of records passed on.
- `Logger.__init__` is left out: making the log directory and `basicConfig`. The model's
  constructor is the class attributes, and `load_configuration` is a separate call.
- `print` calls are left out: in `load_configuration`'s error path and in the Windows
  branch of `_install_ffmpeg`.
- The Spotify Web API is an input (`Library`). The module-level OAuth client and the example
  run at import time are not modelled.
- Lower-casing is the uninterpreted function `lower`; Unicode case folding is not modelled.
- The text of the exceptions raised for a missing track or an empty artist list is not
  modelled. The model records only that one was raised.
- Install.py (privilege probing and `sys.exit`) is not part of this model.
- YoutubeDownload.py (an argparse front end that only dispatches) is not part of this model.
