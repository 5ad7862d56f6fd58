# back-seek separation service, modelled in Dafny

This project models the deterministic logic of the back-seek service. The
service downloads a video's audio track, splits it into four stems with a
Demucs model (vocals, drums, bass, other), and can refine a vocal track.
Every external tool is reduced to an oracle outcome and passed in as a
parameter. These tools are yt-dlp, ffmpeg, Demucs inference, noisereduce and
the torchaudio resampler. The tools read from and write to an abstract
filesystem, `map<Path, Content>`. What remains is modelled as pure functions
over immutable data:

- `Paths` covers the pathlib views the program uses: `name`, `stem`,
  `suffix`, `with_suffix` and `str()`.
- `Store` holds the audio buffers `soundfile` reads, file contents, the
  filesystem, `shutil.copy2`, and the transcoder request and outcome.
- `FileUtils` covers `safe_filename` and `get_audio_files`.
- `Separator` covers `AudioSeparator`: channel normalisation, the
  channels-first layout, the resample decision, and the binding of stems to
  files.
- `VocalRefiner` covers `VocalRefiner`: noise suppression, shaping by the
  transcoder, and the fallback pipeline.
- `Downloader` covers `YouTubeDownloader`: the converting primary strategy,
  the direct fallback, and the temp-file sweep.
- `Api` covers `main.py`: the `separate_audio`, `download_file` and
  `cli_handler` decisions. Flask and the collaborators are reduced to the
  values they return.

Samples are `real`, so row means are exact. A Python exception that
propagates is `Err(message)`. A Python `Optional` is `Option`.

If shaping fails, the refinement fallback copies the original input to the
output path, not the noise-suppressed temp file
(back-seek/src/vocal_refiner.py:124-125).

Normalisation does not always give two channels. A 2-D buffer with one
column matches no branch and stays single-channel
(back-seek/src/separator.py:32-40).

## Model

| member | source | states |
|---|---|---|
| Separator.Normalise | back-seek/src/separator.py:32-40 | Keeps the row count. Mono input gives two columns that both equal the input. Stereo input passes through unchanged. More than two channels gives two columns that both equal the per-row means. A single-column 2-D buffer is left as it is. |
| Separator.NormaliseStereoIff | back-seek/src/separator.py:32-40 | For a non-empty buffer, the result is two-channel if and only if the input is 1-D or has at least two columns. |
| Separator.FourChannelAverage | back-seek/src/separator.py:37-40 | A four-channel frame [1,2,3,6] becomes exactly [3,3]: the flat average, duplicated. |
| Separator.TransposeInvolution | back-seek/src/separator.py:88-89 | Transposing to channels-first and back restores every element [j][c]. |
| Separator.LoadAudio | back-seek/src/separator.py:32-52 | Fails only for a file that is missing or not decodable. When the rates match, the result is the normalised buffer laid out channels-first, with no sample changed. When the rates differ, the result is the resampler applied from the file's rate to the model's rate. |
| Separator.StemPathsDistinct | back-seek/src/separator.py:85 | The four paths `<input stem>_<stem>.wav` are pairwise distinct. |
| Separator.WriteFiles | back-seek/src/separator.py:84-91 | Writing distinct paths in order adds exactly those paths. Path i holds content i, and every other file is unchanged. |
| Separator.StemFiles | back-seek/src/separator.py:81-93 | The returned map has four entries. Entry i binds stem name i to output path i, in the order vocals, drums, bass, other. |
| Separator.WriteStems | back-seek/src/separator.py:84-91 | After n rounds of the loop, exactly the first n stem paths are added. Stem i's file holds model output i, transposed to samples x channels at the model's rate. Every other file is unchanged. |
| Separator.Separate | back-seek/src/separator.py:61-96 | Succeeds if and only if loading and inference succeed and the model returns at least four stems. It then binds the four stem names to their paths and writes all four stems. If loading or inference raises, no file changes. A model output with k < 4 stems raises, and the k stem files already written remain. |
| Separator.ShortOutputLeavesPartialStems | back-seek/src/separator.py:84-91 | With k < 4 model stems the call fails. The first k stem files exist, the other stem paths are as before, and every other file is unchanged. |
| Separator.SeparateRoundTrip | back-seek/src/separator.py:73-93 | With a model that echoes its input and no resampling, every stem file holds exactly the normalised buffer. |
| VocalRefiner.RefineWithFfmpeg | back-seek/src/vocal_refiner.py:19-48 | Returns true if and only if the transcoder exits with code 0, and then the output holds what it produced. A nonzero exit, a timeout or a launch failure returns false and leaves the filesystem unchanged. |
| VocalRefiner.MonoMix | back-seek/src/vocal_refiner.py:62-64 | A 2-D buffer becomes its per-row means, one per sample. A 1-D buffer is kept. |
| VocalRefiner.RefineWithNoisereduce | back-seek/src/vocal_refiner.py:50-84 | Fewer than 1024 samples are written back unchanged at the same rate. Longer input is mixed to mono and suppressed. A read or suppression error falls back to copying the input. It never returns False: it raises only when that copy raises. Only the output file changes. |
| VocalRefiner.RefinedPathIsNotInput | back-seek/src/vocal_refiner.py:91-96 | The output path `<stem>_refined.wav`, placed in the given directory or the input's own, never equals the input path. |
| VocalRefiner.FullRefinementPipeline | back-seek/src/vocal_refiner.py:86-134 | Never raises. It returns the output path or the input path. At most the temp file and the output file appear, and every other file is unchanged. A missing input returns the input with nothing changed. For a present input, a deletable temp file means the output path is returned. The input path comes back only when the temp file cannot be deleted: the output has then been written and the temp file stays. A returned output path exists unless it coincides with the temp path. |
| VocalRefiner.ShapingSuccess | back-seek/src/vocal_refiner.py:110-122 | When shaping succeeds and the temp file can be deleted, the temp file is gone and the output holds the shaped version of the suppressed temp file. |
| VocalRefiner.TempUnlinkFailure | back-seek/src/vocal_refiner.py:110-134 | When shaping succeeds but deleting the temp file raises, the input path is returned. The output already holds the shaped file, and the temp file stays. |
| VocalRefiner.ShapingFailure | back-seek/src/vocal_refiner.py:124-128 | When shaping fails, the output holds the original input and the temp file remains. The file set grows by exactly the temp file and the output file. |
| VocalRefiner.RepeatedFailuresDoNotAccumulate | back-seek/src/vocal_refiner.py:101-128 | A second failing run over the result of a first creates no new file, because the temp name is fixed. |
| Downloader.CleanupTempFiles | back-seek/src/downloader.py:106-115 | A file is deleted if and only if it lies in the downloads directory, matches `audio_temp.*`, `audio_direct.*`, `*.part` or `*.ytdl`, and can be deleted. Failed deletions are ignored, and every other file keeps its content. |
| Downloader.CleanupIdempotent | back-seek/src/downloader.py:106-115 | Sweeping a swept filesystem again changes nothing. |
| Downloader.SweepTakesEarlierResult | back-seek/src/downloader.py:107 | The sweep also deletes `audio_temp.wav`, the result of an earlier successful primary download. |
| Downloader.DownloadAndConvert | back-seek/src/downloader.py:37-81 | Fetches with the m4a format into `audio_temp.*`. A failed fetch raises after sweeping the temp files. A successful fetch continues as ConvertFetched. |
| Downloader.ConvertFetched | back-seek/src/downloader.py:53-81 | Succeeds if and only if the suffix rewrite succeeds, the 2-channel 44100 Hz conversion succeeds, and the intermediate file can be deleted when it exists. The result is the fetched path with its last suffix replaced by `.wav`, and it holds the converted content. The intermediate file is gone, and every other file the fetch left is kept. A failure before conversion sweeps the fetch's leftovers. A failure after conversion sweeps those plus the converted file. |
| Downloader.DeleteIntermediate | back-seek/src/downloader.py:73-77 | Returns the converted path if and only if the intermediate file is missing or can be deleted. It then removes only that file. Otherwise it raises, after sweeping. |
| Downloader.DownloadDirect | back-seek/src/downloader.py:83-104 | Returns the fetched path as is, with no conversion and no sweep. |
| Downloader.DownloadAudio | back-seek/src/downloader.py:19-35 | If the primary succeeds, its path is returned and only one fetch is made. Otherwise the fallback runs on the swept filesystem, and its path or None is returned. A primary result always ends in `.wav`. |
| Downloader.DownloadNoneIff | back-seek/src/downloader.py:19-35 | The result is None if and only if both strategies fail. |
| Downloader.UndeletableIntermediateFallsBack | back-seek/src/downloader.py:19-81 | If the intermediate file cannot be deleted after a successful conversion, the primary strategy fails. The fallback then fetches from the swept filesystem, and the intermediate file is still there. |
| Paths.WithSuffixRoundTrip | back-seek/src/downloader.py:54 | `with_suffix('.wav')` on a non-empty name gives a name whose suffix is `.wav` and whose stem is unchanged. |
| FileUtils.SafeFilename | back-seek/src/utils/file_utils.py:6-8 | Keeps the length. Each of the nine characters less-than, greater-than, colon, double quote, slash, backslash, pipe, question mark and asterisk becomes `_`, and every other character keeps its position. |
| FileUtils.SafeFilenameClean | back-seek/src/utils/file_utils.py:8 | The result has none of those characters, so it has no path separator. |
| FileUtils.SafeFilenameIdempotent | back-seek/src/utils/file_utils.py:8 | Sanitising twice gives the same result as sanitising once. |
| FileUtils.SafeFilenameKeepsClean | back-seek/src/utils/file_utils.py:8 | A name without forbidden characters is unchanged. |
| FileUtils.DotDotPassesThrough | back-seek/src/utils/file_utils.py:8 | `..` passes through unchanged, so sanitising does not prevent traversal. |
| FileUtils.GetAudioFiles | back-seek/src/utils/file_utils.py:14-19 | The result holds exactly the paths of regular-file entries whose lower-cased last suffix is in the list. A missing list means the defaults. |
| FileUtils.GetAudioFilesSubsequence | back-seek/src/utils/file_utils.py:19 | The selection keeps listing order: it is a subsequence of the listing. |
| FileUtils.DefaultKeepsUpperCaseWav | back-seek/src/utils/file_utils.py:16-19 | With no list given, a file named `song.WAV` is selected. |
| Api.SeparateAudio | back-seek/main.py:34-62 | A JSON null body (`request.json` is `None`) or a body without `youtube_url` gives 400 and no call. A failed download gives 500 and the separator is not called. A successful download is followed by separating that file. A separator exception gives 500 carrying its text. On a separator result, a missing `vocals` entry gives 500 `'vocals'`, and a missing `drums` entry gives 500 `'drums'`. When both are present the reply is the success shape: `separated` mirrors the separator's map, `vocals` is its vocals entry and `instrumental` its drums entry. |
| Api.StemFilesLookup | back-seek/main.py:54-55 | In the separator's stem map, `vocals` finds the vocals stem file and `drums` finds the drums stem file. |
| Api.SeparateAudioWithSeparator | back-seek/main.py:45-56 | With the separator model in place, whenever loading and inference succeed with at least four stems, a request with a URL whose download succeeds answers four stems. `vocals` is the vocals stem file and `instrumental` the drums stem file. |
| Api.FirstExisting | back-seek/main.py:67-75 | Reference search: None exactly when no candidate exists. Otherwise the result is the first candidate that exists. |
| Api.DownloadFile | back-seek/main.py:64-78 | A file is served only under the sanitised name and only if it exists. |
| Api.DownloadFileFirstWins | back-seek/main.py:67-78 | The lookup tries the name as is, then `downloads/<name>`, then `separated/<name>`, and the first that exists is served. The answer is 404 exactly when none exists. |
| Api.CliHandler | back-seek/main.py:86-108 | A failed download logs `Falha no download do áudio` and returns, with no separation and no listing. A separator exception prints nothing and logs `Erro: ` followed by its text. Otherwise the output is the three header lines, the second naming the downloaded file, followed by one `  <stem>: <path>` line per entry in map order. The listing is printed if and only if separation succeeds. |
| Api.CliHandlerAgreesWithApi | back-seek/main.py:86-108 | For the same URL and collaborators, the command line makes the same calls as the HTTP handler. It prints its listing whenever the handler succeeds. When it prints but the handler does not succeed, the handler answered 500 for a missing `vocals` or `drums` entry. When it prints nothing, the handler answered 500. |
| Api.CliSucceedsWhereApiFails | back-seek/main.py:99-105 | For a separator that returns an empty map, the command line prints its success listing while the handler answers 500 `'vocals'`. |

## Left out

- Separator.LoadAudio: the torchaudio fallback after a soundfile read error (back-seek/src/separator.py:27-30) is not modelled. An undecodable file is a load failure. That fallback yields a channels-first array, which the normalisation would misread as samples x channels.
- Separator.LoadAudio: the float32 cast and the resampling arithmetic are floating point. Only whether resampling happens is modelled, and the resampler is a parameter.
- Store.AudioData: a 2-D buffer with zero columns is excluded, because soundfile never produces one. `soundfile.write` of an n x 1 buffer is stored as written; the real library would read it back as 1-D. Write failures and missing directories are not modelled.
- Store.Run: a transcoder run that fails leaves the filesystem unchanged. Partial output of a failed ffmpeg run is not modelled.
- VocalRefiner.FullRefinementPipeline: all timing and logging are left out. When the input's stem is `temp`, the output path equals the temp path. An oracle that reports success on that same-file write then sees the returned file deleted. The real ffmpeg refuses to write over its own input, which sends the run to the fallback copy instead.
- Downloader.DownloadAndConvert: yt-dlp is an oracle that returns the prepared file name and the filesystem it leaves behind. Its own effects on files are not constrained.
- Downloader.CleanupTempFiles: glob matching follows POSIX pathlib and is case-sensitive. The source targets Windows, where pathlib matches case-insensitively and `str()` uses backslashes.
- FileUtils.GetAudioFiles: `str.lower()` is modelled for ASCII letters only. The order of the directory listing is an input.
- Api.SeparateAudio: whether `request.json` returns None or raises for a body that is not JSON depends on the Flask version. Both cases are inputs: `NoJson` gives the 400, and `Unparsable` gives the 500 from the handler's catch-all. JSON bodies are modelled as objects with string fields. Non-object JSON and non-string URLs are not modelled. Flask, CORS and `jsonify` are left out.
- Api.DownloadFile: its own contract states only the name and existence. The lookup order and the 404 condition are in Api.DownloadFileFirstWins. `send_file` and the 500 answer for its errors are left out.
- Api.CliHandler: argparse is left out. The parsed `--output` option is never used by the source.
- Progress output: `apply_model(..., progress=True)` only prints to the console and is not modelled.
- Model loading and device selection (back-seek/src/models/model_manager.py): a loaded model is assumed. The health endpoint, loading at import time and `exit(1)` are left out.
- Logging setup, `ensure_directory`, the PATH mutation and the FFmpeg existence checks at import time are left out, because they are configuration.
