/** `YouTubeDownloader`: a converting primary strategy, a direct fallback,
    and the sweep of temporary files after a primary failure. */
module Downloader {
  import opened Outcomes
  import opened Paths
  import opened Store

  const PrimaryFormat: string := "bestaudio[ext=m4a]"
  const DirectFormat: string := "bestaudio"
  /** Two channels at 44100 Hz. */
  const ConvertOptions: seq<string> := ["-ac", "2", "-ar", "44100"]
  const ConvertTimeout: nat := 120

  /** What the download utility is asked for: a locator, a format selector
      and an output template in the downloads directory. */
  datatype FetchRequest = FetchRequest(url: string, format: string, template: Path)

  /** The download utility's outcome: the file name it prepared, or an error;
      either way the filesystem as it left it (possibly with partial files). */
  datatype Fetch = Fetched(path: Path, after: FileSystem) | FetchFailed(message: string, after: FileSystem)

  type Fetcher = (FileSystem, FetchRequest) -> Fetch

  function PrimaryRequest(outDir: string, url: string): FetchRequest {
    FetchRequest(url, PrimaryFormat, Path(outDir, "audio_temp.%(ext)s"))
  }

  function DirectRequest(outDir: string, url: string): FetchRequest {
    FetchRequest(url, DirectFormat, Path(outDir, "audio_direct.%(ext)s"))
  }

  function ConvertRequest(input: Option<Content>): TranscodeRequest {
    TranscodeRequest(input, ConvertOptions, ConvertTimeout)
  }

  /** The glob patterns `audio_temp.*`, `audio_direct.*`, `*.part`, `*.ytdl`. */
  predicate TempPattern(name: string) {
    || StartsWith(name, "audio_temp.")
    || StartsWith(name, "audio_direct.")
    || EndsWith(name, ".part")
    || EndsWith(name, ".ytdl")
  }

  /** A file the sweep deletes: directly in the downloads directory, matching
      a pattern, and deletable (`removable` is false where `unlink` raises). */
  predicate Swept(p: Path, outDir: string, removable: Path -> bool) {
    p.dir == outDir && TempPattern(p.name) && removable(p)
  }

  /** `cleanup_temp_files`: deletes the matching files; a deletion that
      raises is ignored, and every other file is untouched. */
  function CleanupTempFiles(fs: FileSystem, outDir: string, removable: Path -> bool): (r: FileSystem)
    ensures forall p :: p in fs ==> (p in r <==> !Swept(p, outDir, removable))
    ensures forall p :: p in r ==> p in fs && r[p] == fs[p]
  {
    map p | p in fs && !Swept(p, outDir, removable) :: fs[p]
  }

  /** Sweeping twice deletes nothing more than sweeping once. */
  lemma CleanupIdempotent(fs: FileSystem, outDir: string, removable: Path -> bool)
    ensures CleanupTempFiles(CleanupTempFiles(fs, outDir, removable), outDir, removable)
         == CleanupTempFiles(fs, outDir, removable)
  {
  }

  /** A result of a previous successful primary download, `audio_temp.wav`,
      matches `audio_temp.*` and is swept too. */
  lemma SweepTakesEarlierResult(fs: FileSystem, outDir: string, removable: Path -> bool)
    requires Path(outDir, "audio_temp.wav") in fs && removable(Path(outDir, "audio_temp.wav"))
    ensures Path(outDir, "audio_temp.wav") !in CleanupTempFiles(fs, outDir, removable)
  {
  }

  /** One strategy's outcome and the filesystem after it. */
  datatype Attempt = Attempt(result: Result<Path>, fs: FileSystem)

  /** `m4a_path.with_suffix('.wav')` for a fetched file with a non-empty name. */
  function WavPath(m4a: Path): Path {
    Path(m4a.dir, Stem(m4a.name) + ".wav")
  }

  /** The fetched file's name admits a suffix and its 2-channel 44100 Hz
      conversion exited with code 0. */
  predicate Converted(m4a: Path, fs1: FileSystem, transcode: Transcoder) {
    m4a.name != "" && Succeeded(transcode(ConvertRequest(Lookup(fs1, m4a))))
  }

  /** `if m4a_path.exists(): m4a_path.unlink()` followed by `return wav_path`;
      an `unlink` that raises sends the attempt to the sweep. */
  function DeleteIntermediate(fs2: FileSystem, m4a: Path, wav: Path, outDir: string,
                              removable: Path -> bool): (r: Attempt)
    ensures r.result.Ok? <==> (m4a in fs2 ==> removable(m4a))
    ensures r.result.Ok? ==> r.result.value == wav && m4a !in r.fs
    ensures r.result.Ok? ==> forall p :: p in fs2 && p != m4a ==> p in r.fs && r.fs[p] == fs2[p]
    ensures r.result.Ok? ==> r.fs.Keys <= fs2.Keys
    ensures r.result.Err? ==> r.fs == CleanupTempFiles(fs2, outDir, removable)
  {
    if m4a in fs2 && !removable(m4a) then
      Attempt(Err("cannot delete the intermediate file"), CleanupTempFiles(fs2, outDir, removable))
    else Attempt(Ok(wav), RemoveIfExists(fs2, m4a))
  }

  /** `_download_and_convert` after yt-dlp fetched `m4a`, leaving `fs1`: the
      suffix rewrite, the conversion, and the deletion of the intermediate
      file. `removable` says which files `unlink` can delete; that deletion
      may raise like any other step, and every failure sweeps. */
  function ConvertFetched(m4a: Path, fs1: FileSystem, outDir: string,
                          transcode: Transcoder, removable: Path -> bool): (r: Attempt)
    // succeeds exactly when the suffix rewrite, the conversion and the
    // deletion of the intermediate file (when it exists) do
    ensures r.result.Ok? <==>
      Converted(m4a, fs1, transcode) && ((m4a in fs1 || m4a == WavPath(m4a)) ==> removable(m4a))
    // the result is the fetched path with its suffix replaced by ".wav",
    // holding the two-channel 44100 Hz conversion of the fetched file
    ensures r.result.Ok? ==>
      && r.result.value == WavPath(m4a)
      && Suffix(r.result.value.name) == ".wav"
      && (r.result.value != m4a ==>
            r.result.value in r.fs && r.fs[r.result.value] == transcode(ConvertRequest(Lookup(fs1, m4a))).produced)
    // the intermediate file is deleted, and every other file the fetch left
    // behind is kept as it was
    ensures r.result.Ok? ==> m4a !in r.fs && r.fs.Keys <= fs1.Keys + {r.result.value}
    ensures r.result.Ok? ==>
      forall p :: p in fs1 && p != m4a && p != r.result.value ==> p in r.fs && r.fs[p] == fs1[p]
    // a failure sweeps: before a successful conversion the fetch's leftovers,
    // after it those plus the converted file
    ensures r.result.Err? && !Converted(m4a, fs1, transcode) ==> r.fs == CleanupTempFiles(fs1, outDir, removable)
    ensures r.result.Err? && Converted(m4a, fs1, transcode) ==>
      r.fs == CleanupTempFiles(fs1[WavPath(m4a) := transcode(ConvertRequest(Lookup(fs1, m4a))).produced],
                               outDir, removable)
  {
    match WithSuffix(m4a.name, ".wav")
    case Err(message) => Attempt(Err(message), CleanupTempFiles(fs1, outDir, removable))
    case Ok(wavName) =>
      var wav := Path(m4a.dir, wavName);
      var run := transcode(ConvertRequest(Lookup(fs1, m4a)));
      if run.Exited? && run.code == 0 then
        WithSuffixRoundTrip(m4a.name, ".wav");
        DeleteIntermediate(fs1[wav := run.produced], m4a, wav, outDir, removable)
      else Attempt(Err("FFmpeg failed"), CleanupTempFiles(fs1, outDir, removable))
  }

  /** `_download_and_convert`: fetch with the m4a format into `audio_temp.*`;
      a failed fetch sweeps the temporary files before it surfaces. */
  function DownloadAndConvert(fs: FileSystem, outDir: string, url: string, fetch: Fetcher,
                              transcode: Transcoder, removable: Path -> bool): (r: Attempt)
    ensures var f := fetch(fs, PrimaryRequest(outDir, url));
      f.FetchFailed? ==> r == Attempt(Err(f.message), CleanupTempFiles(f.after, outDir, removable))
    ensures var f := fetch(fs, PrimaryRequest(outDir, url));
      f.Fetched? ==> r == ConvertFetched(f.path, f.after, outDir, transcode, removable)
  {
    match fetch(fs, PrimaryRequest(outDir, url))
    case FetchFailed(message, fs1) => Attempt(Err(message), CleanupTempFiles(fs1, outDir, removable))
    case Fetched(m4a, fs1) => ConvertFetched(m4a, fs1, outDir, transcode, removable)
  }

  /** `_download_direct`: no conversion and no sweep. */
  function DownloadDirect(fs: FileSystem, outDir: string, url: string, fetch: Fetcher): (r: Attempt)
    ensures r.fs == fetch(fs, DirectRequest(outDir, url)).after
    ensures r.result.Ok? <==> fetch(fs, DirectRequest(outDir, url)).Fetched?
    ensures r.result.Ok? ==> r.result.value == fetch(fs, DirectRequest(outDir, url)).path
  {
    match fetch(fs, DirectRequest(outDir, url))
    case Fetched(path, fs1) => Attempt(Ok(path), fs1)
    case FetchFailed(message, fs1) => Attempt(Err(message), fs1)
  }

  /** `download_audio`'s answer, its effect, and the fetches it made in order. */
  datatype Download = Download(path: Option<Path>, fs: FileSystem, requests: seq<FetchRequest>)

  /** `download_audio`: the primary strategy, then (only if it raised) the
      fallback on the swept filesystem; `None` when both raise. It never raises. */
  function DownloadAudio(fs: FileSystem, outDir: string, url: string, fetch: Fetcher,
                         transcode: Transcoder, removable: Path -> bool): (r: Download)
    ensures 1 <= |r.requests| <= 2 && r.requests[0] == PrimaryRequest(outDir, url)
    ensures
      var first := DownloadAndConvert(fs, outDir, url, fetch, transcode, removable);
      first.result.Ok? ==> r == Download(Some(first.result.value), first.fs, [PrimaryRequest(outDir, url)])
    ensures
      var first := DownloadAndConvert(fs, outDir, url, fetch, transcode, removable);
      var second := DownloadDirect(first.fs, outDir, url, fetch);
      first.result.Err? ==>
        && r.requests == [PrimaryRequest(outDir, url), DirectRequest(outDir, url)]
        && r.fs == second.fs
        && r.path == (if second.result.Ok? then Some(second.result.value) else None)
    ensures r.path.Some? && |r.requests| == 1 ==> Suffix(r.path.value.name) == ".wav"
  {
    var first := DownloadAndConvert(fs, outDir, url, fetch, transcode, removable);
    if first.result.Ok? then Download(Some(first.result.value), first.fs, [PrimaryRequest(outDir, url)])
    else
      var second := DownloadDirect(first.fs, outDir, url, fetch);
      var path := if second.result.Ok? then Some(second.result.value) else None;
      Download(path, second.fs, [PrimaryRequest(outDir, url), DirectRequest(outDir, url)])
  }

  /** `download_audio` returns `None` exactly when both strategies fail. */
  lemma DownloadNoneIff(fs: FileSystem, outDir: string, url: string, fetch: Fetcher,
                        transcode: Transcoder, removable: Path -> bool)
    ensures DownloadAudio(fs, outDir, url, fetch, transcode, removable).path.None? <==>
      var first := DownloadAndConvert(fs, outDir, url, fetch, transcode, removable);
      first.result.Err? && fetch(first.fs, DirectRequest(outDir, url)).FetchFailed?
  {
  }

  /** An intermediate file that cannot be deleted after a successful
      conversion makes the primary strategy raise: the fallback then fetches
      from the swept filesystem that still holds the conversion's output
      unless the sweep took it. */
  lemma UndeletableIntermediateFallsBack(fs: FileSystem, outDir: string, url: string, fetch: Fetcher,
                                         transcode: Transcoder, removable: Path -> bool)
    requires var f := fetch(fs, PrimaryRequest(outDir, url));
      f.Fetched? && Converted(f.path, f.after, transcode) && f.path in f.after && !removable(f.path)
    ensures
      var f := fetch(fs, PrimaryRequest(outDir, url));
      var swept := CleanupTempFiles(f.after[WavPath(f.path) := transcode(ConvertRequest(Lookup(f.after, f.path))).produced],
                                    outDir, removable);
      var r := DownloadAudio(fs, outDir, url, fetch, transcode, removable);
      && r.requests == [PrimaryRequest(outDir, url), DirectRequest(outDir, url)]
      && r.fs == fetch(swept, DirectRequest(outDir, url)).after
      && f.path in swept
  {
  }
}
