/**
 * The Spotify downloader: it finds a playlist of the user's library by name, compared
 * case-insensitively, and downloads the audio of every track of it by searching YouTube
 * for the track's name and first artist.
 *
 * The Spotify Web API is an input (`Library`), and so is lower-casing (`lower`), which
 * the model leaves uninterpreted.
 */
module Spotify {
  import opened Wrappers
  import opened Paths
  import opened Environment
  import opened Logging
  import opened YouTube

  /** An entry of `current_user_playlists()['items']`. */
  datatype Playlist = Playlist(name: string, id: string)

  /** A track: its name and the names of its artists, in order. */
  datatype Track = Track(name: string, artists: seq<string>)

  /** An entry of `playlist_tracks(id)['items']`; its track may be missing. */
  datatype TrackItem = TrackItem(track: Option<Track>)

  /** The user's library as the Web API returns it. */
  datatype Library = Library(playlists: seq<Playlist>, tracksOf: string -> seq<TrackItem>)

  /** The arguments of one `download_video` call. */
  datatype DownloadCall = DownloadCall(url: string, path: string, keepAudioOnly: bool)

  /** The index of the first playlist whose lower-cased name equals the lower-cased request. */
  function FirstMatch(playlists: seq<Playlist>, name: string, lower: string -> string): (index: Option<nat>)
    ensures index.Some? ==>
      && index.value < |playlists|
      && lower(playlists[index.value].name) == lower(name)
      && forall j :: 0 <= j < index.value ==> lower(playlists[j].name) != lower(name)
    ensures index.None? ==> forall j :: 0 <= j < |playlists| ==> lower(playlists[j].name) != lower(name)
  {
    if playlists == [] then None
    else if lower(playlists[0].name) == lower(name) then Some(0)
    else match FirstMatch(playlists[1..], name, lower)
      case None => None
      case Some(i) => Some(i + 1)
  }

  /** The search the downloader hands to yt-dlp for a track. */
  function SearchUrl(track: Track): (url: string)
    requires track.artists != []
    ensures |url| == 10 + |track.name| + |track.artists[0]|
  {
    "ytsearch:" + track.name + " " + track.artists[0]
  }

  /** The query reads back as the search prefix, the track's name, a space and its first artist. */
  lemma SearchUrlParts(track: Track)
    requires track.artists != []
    ensures var url := SearchUrl(track);
      && url[..9] == "ytsearch:" && url[9..9 + |track.name|] == track.name
      && url[9 + |track.name|] == ' ' && url[10 + |track.name|..] == track.artists[0]
  {
    var prefix := "ytsearch:";
    assert |prefix| == 9;
    assert SearchUrl(track) == prefix + track.name + " " + track.artists[0];
  }

  function NotFoundMessage(playlistName: string): Record
  {
    Record(Error, "No se encontró la lista de reproducción: " + playlistName)
  }

  function DownloadingMessage(track: Track): Record
    requires track.artists != []
  {
    Record(Info, "Descargando '" + track.name + "' de '" + track.artists[0] + "' desde YouTube")
  }

  /**
   * The effect of a run so far: the filesystem, the messages written, the
   * `download_video` calls made, and whether an exception escaped.
   */
  datatype SpotifyResult = SpotifyResult(fs: Fs, messages: seq<Record>, calls: seq<DownloadCall>, raised: bool)

  /**
   * One pass of the track loop. A missing track (`None['name']`), a track without
   * artists (`[][0]`) or a failing `os.makedirs` raises and ends the run.
   */
  function Step(done: SpotifyResult, index: nat, item: TrackItem, playlistName: string, downloadPath: string,
                runs: nat -> ToolRun): (r: SpotifyResult)
    ensures done.raised ==> r == done
    ensures done.calls <= r.calls && |r.calls| <= |done.calls| + 1
    ensures !r.raised ==> |r.calls| == |done.calls| + 1
  {
    if done.raised || item.track.None? || item.track.value.artists == [] then done.(raised := true)
    else
      var track := item.track.value;
      var path := PathJoin(downloadPath, playlistName);
      match MakeDirsOn(done.fs, path)
      case Err(_) => done.(raised := true)
      case Ok(ready) =>
        var fetch := Fetch(ready, SearchUrl(track), path, true, false, runs(index));
        SpotifyResult(
          fetch.fs,
          done.messages + ([DownloadingMessage(track)] + fetch.messages),
          done.calls + [DownloadCall(SearchUrl(track), path, true)],
          false)
  }

  /** The track loop over `items`; `runs(k)` is how yt-dlp fares on the k-th track. */
  function Downloads(fs: Fs, items: seq<TrackItem>, playlistName: string, downloadPath: string,
                     runs: nat -> ToolRun): (r: SpotifyResult)
    ensures |r.calls| <= |items|
    ensures !r.raised ==> |r.calls| == |items|
  {
    if items == [] then SpotifyResult(fs, [], [], false)
    else
      Step(Downloads(fs, items[..|items| - 1], playlistName, downloadPath, runs),
        |items| - 1, items[|items| - 1], playlistName, downloadPath, runs)
  }

  /** `download_playlist_from_spotify(playlist_name, download_path)`. */
  function DownloadPlaylist(fs: Fs, library: Library, lower: string -> string, playlistName: string,
                            downloadPath: string, runs: nat -> ToolRun): (r: SpotifyResult)
    ensures r.calls != [] ==> FirstMatch(library.playlists, playlistName, lower).Some?
    ensures FirstMatch(library.playlists, playlistName, lower).None? ==> r.messages == [NotFoundMessage(playlistName)]
    ensures var m := FirstMatch(library.playlists, playlistName, lower);
      m.Some? && library.playlists[m.value].id != "" ==>
        r == Downloads(fs, library.tracksOf(library.playlists[m.value].id), playlistName, downloadPath, runs)
    ensures var m := FirstMatch(library.playlists, playlistName, lower);
      m.Some? && library.playlists[m.value].id == "" ==> r == SpotifyResult(fs, [NotFoundMessage(playlistName)], [], false)
  {
    match FirstMatch(library.playlists, playlistName, lower)
    case None => SpotifyResult(fs, [NotFoundMessage(playlistName)], [], false)
    case Some(i) =>
      var id := library.playlists[i].id;
      if id == "" then SpotifyResult(fs, [NotFoundMessage(playlistName)], [], false)
      else Downloads(fs, library.tracksOf(id), playlistName, downloadPath, runs)
  }

  /** The loop over the first `k + 1` tracks is the loop over the first `k`, then one more pass. */
  lemma DownloadsUnfold(fs: Fs, items: seq<TrackItem>, k: nat, playlistName: string, downloadPath: string,
                        runs: nat -> ToolRun)
    requires k < |items|
    ensures Downloads(fs, items[..k + 1], playlistName, downloadPath, runs)
      == Step(Downloads(fs, items[..k], playlistName, downloadPath, runs), k, items[k], playlistName, downloadPath, runs)
  {
    assert items[..k + 1][..k] == items[..k];
  }

  /** Without a matching playlist one error is logged and nothing is fetched or downloaded. */
  lemma NoMatchNoDownloads(fs: Fs, library: Library, lower: string -> string, playlistName: string,
                           downloadPath: string, runs: nat -> ToolRun)
    requires forall j :: 0 <= j < |library.playlists| ==> lower(library.playlists[j].name) != lower(playlistName)
    ensures DownloadPlaylist(fs, library, lower, playlistName, downloadPath, runs)
      == SpotifyResult(fs, [NotFoundMessage(playlistName)], [], false)
  {
  }

  /** A later playlist with a matching name is never used. */
  lemma FirstMatchWins(playlists: seq<Playlist>, name: string, lower: string -> string, i: nat)
    requires i < |playlists| && lower(playlists[i].name) == lower(name)
    ensures FirstMatch(playlists, name, lower).Some? && FirstMatch(playlists, name, lower).value <= i
  {
  }

  /** Once an exception has escaped, later tracks change nothing. */
  lemma {:induction false} RaisedIsFinal(fs: Fs, items: seq<TrackItem>, k: nat, playlistName: string,
                                         downloadPath: string, runs: nat -> ToolRun)
    requires k <= |items| && Downloads(fs, items[..k], playlistName, downloadPath, runs).raised
    ensures Downloads(fs, items, playlistName, downloadPath, runs) == Downloads(fs, items[..k], playlistName, downloadPath, runs)
  {
    if k < |items| {
      var last := |items| - 1;
      assert items[..last][..k] == items[..k];
      RaisedIsFinal(fs, items[..last], k, playlistName, downloadPath, runs);
      DownloadsUnfold(fs, items, last, playlistName, downloadPath, runs);
      assert items[..last + 1] == items;
    } else {
      assert items[..k] == items;
    }
  }

  /**
   * One `download_video` call per track, in track order, each searching for the
   * track's name and first artist under the requested playlist name, audio only; an
   * exception ends the run before the track that raised it.
   */
  lemma {:induction false} CallsFollowTracks(fs: Fs, items: seq<TrackItem>, playlistName: string,
                                             downloadPath: string, runs: nat -> ToolRun)
    ensures var r := Downloads(fs, items, playlistName, downloadPath, runs);
      && |r.calls| <= |items|
      && (!r.raised ==> |r.calls| == |items|)
      && forall k :: 0 <= k < |r.calls| ==>
           && items[k].track.Some? && items[k].track.value.artists != []
           && r.calls[k] == DownloadCall(SearchUrl(items[k].track.value), PathJoin(downloadPath, playlistName), true)
  {
    if items != [] {
      var last := |items| - 1;
      CallsFollowTracks(fs, items[..last], playlistName, downloadPath, runs);
      var before := Downloads(fs, items[..last], playlistName, downloadPath, runs);
      forall k | 0 <= k < |before.calls|
        ensures items[k] == items[..last][k]
      {
      }
      CallsStep(before, items, playlistName, downloadPath, runs);
    }
  }

  /** The calls made so far follow the tracks, and so do they after one more pass. */
  lemma CallsStep(before: SpotifyResult, items: seq<TrackItem>, playlistName: string, downloadPath: string,
                  runs: nat -> ToolRun)
    requires items != [] && |before.calls| < |items|
    requires forall k :: 0 <= k < |before.calls| ==>
      && items[k].track.Some? && items[k].track.value.artists != []
      && before.calls[k] == DownloadCall(SearchUrl(items[k].track.value), PathJoin(downloadPath, playlistName), true)
    requires !before.raised ==> |before.calls| == |items| - 1
    ensures var r := Step(before, |items| - 1, items[|items| - 1], playlistName, downloadPath, runs);
      forall k :: 0 <= k < |r.calls| ==>
        && items[k].track.Some? && items[k].track.value.artists != []
        && r.calls[k] == DownloadCall(SearchUrl(items[k].track.value), PathJoin(downloadPath, playlistName), true)
  {
    StepCalls(before, |items| - 1, items[|items| - 1], playlistName, downloadPath, runs);
  }

  /** A pass of the track loop adds the call for its track, or raises and adds nothing. */
  lemma StepCalls(done: SpotifyResult, index: nat, item: TrackItem, playlistName: string, downloadPath: string,
                  runs: nat -> ToolRun)
    ensures var r := Step(done, index, item, playlistName, downloadPath, runs);
      && (done.raised ==> r.raised)
      && (r.raised ==> r.calls == done.calls)
      && (!r.raised ==>
            && item.track.Some? && item.track.value.artists != []
            && r.calls == done.calls + [DownloadCall(SearchUrl(item.track.value), PathJoin(downloadPath, playlistName), true)])
  {
  }

  class SpotifyDownloader {
    const logger: Logger
    const youtubeDownloader: YouTubeDownloader

    constructor (logger: Logger)
      requires logger.Valid()
      modifies logger
      ensures this.logger == logger && youtubeDownloader.logger == logger
      ensures logger.Valid() && logger.Logged([Record(Info, "YouTubeDownloader initialized.")])
    {
      this.logger := logger;
      youtubeDownloader := new YouTubeDownloader(logger);
    }

    /** The loop with `break` that picks the playlist id; none if no name matches. */
    static method FindPlaylistId(playlists: seq<Playlist>, playlistName: string, lower: string -> string)
      returns (playlistId: Option<string>)
      ensures playlistId.None? <==> FirstMatch(playlists, playlistName, lower).None?
      ensures playlistId.Some? ==> playlistId.value == playlists[FirstMatch(playlists, playlistName, lower).value].id
    {
      playlistId := None;
      var i := 0;
      while i < |playlists|
        invariant 0 <= i <= |playlists|
        invariant forall j :: 0 <= j < i ==> lower(playlists[j].name) != lower(playlistName)
      {
        if lower(playlists[i].name) == lower(playlistName) {
          playlistId := Some(playlists[i].id);
          break;
        }
        i := i + 1;
      }
    }

    /**
     * One pass of the track loop: the `download_video` call it makes, none if it raised,
     * and the messages it writes.
     */
    method DownloadTrack(ghost done: SpotifyResult, index: nat, item: TrackItem, playlistName: string,
                         downloadPath: string, fs: FileSystem, runs: nat -> ToolRun)
      returns (call: Option<DownloadCall>, ghost added: seq<Record>)
      requires !done.raised && fs.View() == done.fs
      requires logger.Valid() && youtubeDownloader.logger == logger
      modifies logger, fs
      ensures var r := Step(done, index, item, playlistName, downloadPath, runs);
        && fs.View() == r.fs && r.messages == done.messages + added
        && (call.None? <==> r.raised)
        && (call.Some? ==> r.calls == done.calls + [call.value])
        && logger.Valid() && logger.Logged(added)
    {
      if item.track.None? || item.track.value.artists == [] {
        return None, [];
      }
      var track := item.track.value;
      var url := "ytsearch:" + track.name + " " + track.artists[0];
      var playlistPath := PathJoin(downloadPath, playlistName);
      var error := fs.MakeDirs(playlistPath);
      if error.Some? {
        return None, [];
      }
      logger.WriteInfo(DownloadingMessage(track).message);
      var _, _ := youtubeDownloader.DownloadVideo(url, playlistPath, true, fs, runs(index));
      call := Some(DownloadCall(url, playlistPath, true));
      ghost var fetched := Fetch(MakeDirsOn(done.fs, playlistPath).value, url, playlistPath, true, false, runs(index)).messages;
      added := [DownloadingMessage(track)] + fetched;
      Regroup(old(logger.written), [DownloadingMessage(track)], fetched);
    }

    /** Returns the `download_video` calls made and whether an exception escaped. */
    method DownloadPlaylistFromSpotify(playlistName: string, downloadPath: string, library: Library,
                                       lower: string -> string, fs: FileSystem, runs: nat -> ToolRun)
      returns (calls: seq<DownloadCall>, raised: bool)
      requires logger.Valid() && youtubeDownloader.logger == logger
      modifies logger, fs
      ensures var r := DownloadPlaylist(old(fs.View()), library, lower, playlistName, downloadPath, runs);
        && fs.View() == r.fs && calls == r.calls && raised == r.raised
        && logger.Valid() && logger.Logged(r.messages)
    {
      var playlistId := FindPlaylistId(library.playlists, playlistName, lower);
      if playlistId.None? || playlistId.value == "" {
        logger.WriteError(NotFoundMessage(playlistName).message);
        return [], false;
      }
      calls, raised := DownloadTracks(library.tracksOf(playlistId.value), playlistName, downloadPath, fs, runs);
    }

    /** The track loop of `download_playlist_from_spotify`. */
    method DownloadTracks(items: seq<TrackItem>, playlistName: string, downloadPath: string, fs: FileSystem,
                          runs: nat -> ToolRun)
      returns (calls: seq<DownloadCall>, raised: bool)
      requires logger.Valid() && youtubeDownloader.logger == logger
      modifies logger, fs
      ensures var r := Downloads(old(fs.View()), items, playlistName, downloadPath, runs);
        && fs.View() == r.fs && calls == r.calls && raised == r.raised
        && logger.Valid() && logger.Logged(r.messages)
    {
      calls, raised := [], false;
      ghost var start, w := fs.View(), logger.written;
      ghost var done := SpotifyResult(start, [], [], false);
      var k := 0;
      while k < |items|
        invariant 0 <= k <= |items|
        invariant done == Downloads(start, items[..k], playlistName, downloadPath, runs) && !done.raised
        invariant fs.View() == done.fs && calls == done.calls
        invariant logger.Valid() && logger.Logged(done.messages)
      {
        DownloadsUnfold(start, items, k, playlistName, downloadPath, runs);
        ghost var before := done;
        var call;
        ghost var added;
        call, added := DownloadTrack(done, k, items[k], playlistName, downloadPath, fs, runs);
        done := Step(done, k, items[k], playlistName, downloadPath, runs);
        if call.None? {
          raised := true;
          RaisedIsFinal(start, items, k + 1, playlistName, downloadPath, runs);
          return;
        }
        calls := calls + [call.value];
        Regroup(w, before.messages, added);
        k := k + 1;
      }
      assert items[..k] == items;
    }
  }
}
