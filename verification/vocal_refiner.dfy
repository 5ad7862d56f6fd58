/** `VocalRefiner`: noise suppression, then shaping by the external
    transcoder, with a fallback at each step, over the abstract filesystem. */
module VocalRefiner {
  import opened Outcomes
  import opened Paths
  import opened Store
  import Separator

  /** Buffers shorter than this skip noise suppression. */
  const MinSamples: nat := 1024

  /** High-pass at 60 Hz, low-pass at 8500 Hz, then a compander with fixed knee points. */
  const FilterChain: string := "highpass=60,lowpass=8500,compand=attacks=0.1:decays=0.3:points=-80/-80|-30/-10|0/0"
  const ShapeTimeout: nat := 60
  const TempName: string := "temp_refined.wav"

  /** The transcoder invocation `refine_with_ffmpeg` makes on the file at hand. */
  function ShapeRequest(input: Option<Content>): TranscodeRequest {
    TranscodeRequest(input, ["-af", FilterChain], ShapeTimeout)
  }

  /** `refine_with_ffmpeg`: True exactly when the transcoder exits with code 0,
      in which case the output file holds what it produced; a nonzero exit, a
      timeout or a launch failure gives False and never raises. */
  function RefineWithFfmpeg(fs: FileSystem, input: Path, output: Path, transcode: Transcoder): (r: (bool, FileSystem))
    ensures r.0 <==> Succeeded(transcode(ShapeRequest(Lookup(fs, input))))
    ensures r.0 ==> r.1 == fs[output := transcode(ShapeRequest(Lookup(fs, input))).produced]
    ensures !r.0 ==> r.1 == fs
  {
    var run := transcode(ShapeRequest(Lookup(fs, input)));
    if run.Exited? && run.code == 0 then (true, fs[output := run.produced]) else (false, fs)
  }

  /** The call `nr.reduce_noise(y=..., sr=..., stationary=True, prop_decrease=0.9)`. */
  datatype NoiseRequest = NoiseRequest(samples: seq<real>, rate: int, stationary: bool, propDecrease: real)

  /** The noise reducer's answer: the cleaned signal, or `None` when it raises. */
  type Denoiser = NoiseRequest -> Option<seq<real>>

  /** `data.mean(axis=1)` for a 2-D buffer; a 1-D buffer is already mono. */
  function MonoMix(data: Audio): (y: seq<real>)
    ensures |y| == data.Length()
    ensures data.Multi? ==> forall j :: 0 <= j < |y| ==> y[j] == Separator.Mean(data.rows[j])
    ensures data.Mono? ==> y == data.samples
  {
    match data
    case Mono(x) => x
    case Multi(rows, k) => Separator.RowMeans(rows, k)
  }

  function SuppressionRequest(data: Audio, rate: int): NoiseRequest {
    NoiseRequest(MonoMix(data), rate, true, 0.9)
  }

  /** Whether `refine_with_noisereduce` gets past reading and suppressing
      without falling back to a copy. */
  predicate Suppressible(c: Content, denoise: Denoiser) {
    c.Sound? && (c.data.Length() < MinSamples || denoise(SuppressionRequest(c.data, c.rate)).Some?)
  }

  /** `refine_with_noisereduce`: `Ok` is its True; it never returns False.
      A short buffer is written back unchanged at the same rate; a long one
      is mixed to mono and suppressed; when reading or suppressing fails the
      input is copied, and only that copy can raise. */
  function RefineWithNoisereduce(fs: FileSystem, input: Path, output: Path, denoise: Denoiser): (r: Result<FileSystem>)
    ensures input in fs && fs[input].Sound? && fs[input].data.Length() < MinSamples ==>
      r == Ok(fs[output := fs[input]])
    ensures input in fs && fs[input].Sound? && fs[input].data.Length() >= MinSamples ==>
      var answer := denoise(SuppressionRequest(fs[input].data, fs[input].rate));
      r == if answer.Some? then Ok(fs[output := Sound(Mono(answer.value), fs[input].rate)])
           else Copy(fs, input, output)
    ensures !(input in fs && fs[input].Sound?) ==> r == Copy(fs, input, output)
    ensures r.Err? <==> (input !in fs || (input == output && !Suppressible(fs[input], denoise)))
    ensures r.Ok? ==> r.value.Keys == fs.Keys + {output}
    ensures r.Ok? ==> forall p :: p in fs && p != output ==> r.value[p] == fs[p]
  {
    if input in fs && fs[input].Sound? then
      var data, sr := fs[input].data, fs[input].rate;
      if data.Length() < MinSamples then Ok(fs[output := Sound(data, sr)])
      else
        match denoise(SuppressionRequest(data, sr))
        case Some(y) => Ok(fs[output := Sound(Mono(y), sr)])
        case None => Copy(fs, input, output)
    else Copy(fs, input, output)
  }

  /** Where `full_refinement_pipeline` writes: the given directory, or the input's own. */
  function OutputDir(input: Path, outputDir: Option<string>): string {
    outputDir.GetOr(input.dir)
  }

  /** `output_dir / f"{stem}_refined.wav"` */
  function RefinedPath(input: Path, outputDir: Option<string>): Path {
    Path(OutputDir(input, outputDir), Stem(input.name) + "_refined.wav")
  }

  /** `output_dir / "temp_refined.wav"`: one fixed name per directory. */
  function TempPath(input: Path, outputDir: Option<string>): Path {
    Path(OutputDir(input, outputDir), TempName)
  }

  /** The refined name never equals the input's, so the fallback copy cannot
      be a copy onto itself. */
  lemma RefinedPathIsNotInput(input: Path, outputDir: Option<string>)
    ensures RefinedPath(input, outputDir) != input
  {
  }

  /** Result of the pipeline: the path handed back and the filesystem after it. */
  datatype Refined = Refined(path: Path, fs: FileSystem)

  /** `full_refinement_pipeline`: suppression into the temp file, then shaping
      into the output path. On shaping success the temp file is deleted; on
      failure the ORIGINAL input is copied to the output path and the temp
      file stays; if anything raises, the input path itself is returned.
      `removable` says which files `unlink` can delete. */
  function FullRefinementPipeline(fs: FileSystem, input: Path, outputDir: Option<string>,
                                  denoise: Denoiser, transcode: Transcoder, removable: Path -> bool): (r: Refined)
    ensures r.path == RefinedPath(input, outputDir) || r.path == input
    // only the temp file and the output file can appear; nothing else changes
    ensures r.fs.Keys <= fs.Keys + {TempPath(input, outputDir), RefinedPath(input, outputDir)}
    ensures forall p :: p in fs && p != TempPath(input, outputDir) && p != RefinedPath(input, outputDir) ==>
      p in r.fs && r.fs[p] == fs[p]
    // the input path comes back only when the input cannot be read or copied
    ensures input !in fs ==> r == Refined(input, fs)
    ensures input in fs && input != TempPath(input, outputDir) && removable(TempPath(input, outputDir)) ==>
      r.path == RefinedPath(input, outputDir)
    // otherwise only a temp file that cannot be deleted sends the input back,
    // with the output already written and the temp file kept
    ensures input in fs && input != TempPath(input, outputDir) && r.path == input ==>
      && !removable(TempPath(input, outputDir))
      && TempPath(input, outputDir) in r.fs
      && RefinedPath(input, outputDir) in r.fs
    ensures r.path == RefinedPath(input, outputDir) && RefinedPath(input, outputDir) != TempPath(input, outputDir) ==>
      RefinedPath(input, outputDir) in r.fs
  {
    var output := RefinedPath(input, outputDir);
    var temp := TempPath(input, outputDir);
    match RefineWithNoisereduce(fs, input, temp, denoise)
    case Err(_) => Refined(input, fs)
    case Ok(fs1) =>
      var (shaped, fs2) := RefineWithFfmpeg(fs1, temp, output, transcode);
      if shaped then
        if temp in fs2 && !removable(temp) then Refined(input, fs2)
        else Refined(output, RemoveIfExists(fs2, temp))
      else
        RefinedPathIsNotInput(input, outputDir);
        match Copy(fs1, input, output)
        case Ok(fs3) => Refined(output, fs3)
        case Err(_) => Refined(input, fs1)
  }

  /** When shaping succeeds the temp file is gone and the output holds the
      shaped version of the suppressed temp file. */
  lemma ShapingSuccess(fs: FileSystem, input: Path, outputDir: Option<string>,
                       denoise: Denoiser, transcode: Transcoder, removable: Path -> bool)
    requires RefineWithNoisereduce(fs, input, TempPath(input, outputDir), denoise).Ok?
    requires
      var fs1 := RefineWithNoisereduce(fs, input, TempPath(input, outputDir), denoise).value;
      Succeeded(transcode(ShapeRequest(Lookup(fs1, TempPath(input, outputDir)))))
    requires RefinedPath(input, outputDir) != TempPath(input, outputDir)
    requires removable(TempPath(input, outputDir))
    ensures
      var fs1 := RefineWithNoisereduce(fs, input, TempPath(input, outputDir), denoise).value;
      var r := FullRefinementPipeline(fs, input, outputDir, denoise, transcode, removable);
      && r.path == RefinedPath(input, outputDir)
      && TempPath(input, outputDir) !in r.fs
      && r.fs[r.path] == transcode(ShapeRequest(Some(fs1[TempPath(input, outputDir)]))).produced
  {
  }

  /** When shaping fails the output holds the original input, not the
      suppressed temp file, and the temp file is kept. */
  lemma ShapingFailure(fs: FileSystem, input: Path, outputDir: Option<string>,
                       denoise: Denoiser, transcode: Transcoder, removable: Path -> bool)
    requires input in fs && input != TempPath(input, outputDir)
    requires
      var fs1 := RefineWithNoisereduce(fs, input, TempPath(input, outputDir), denoise).value;
      !Succeeded(transcode(ShapeRequest(Lookup(fs1, TempPath(input, outputDir)))))
    ensures
      var r := FullRefinementPipeline(fs, input, outputDir, denoise, transcode, removable);
      && r.path == RefinedPath(input, outputDir)
      && r.fs[r.path] == fs[input]
      && TempPath(input, outputDir) in r.fs
      && r.fs.Keys == fs.Keys + {TempPath(input, outputDir), RefinedPath(input, outputDir)}
  {
    RefinedPathIsNotInput(input, outputDir);
  }

  /** Because the temp name is fixed, a second failing run over the result of
      a first one creates no further file. */
  lemma RepeatedFailuresDoNotAccumulate(fs: FileSystem, input: Path, outputDir: Option<string>,
                                        denoise: Denoiser, transcode: Transcoder, removable: Path -> bool)
    requires input in fs && input != TempPath(input, outputDir)
    requires forall q :: !Succeeded(transcode(q))
    ensures
      var once := FullRefinementPipeline(fs, input, outputDir, denoise, transcode, removable).fs;
      FullRefinementPipeline(once, input, outputDir, denoise, transcode, removable).fs.Keys == once.Keys
  {
  }

  /** When shaping succeeds but the temp file cannot be deleted, `unlink`
      raises inside the pipeline's catch-all: the input path comes back, yet
      the shaped output has been written and the temp file stays. */
  lemma TempUnlinkFailure(fs: FileSystem, input: Path, outputDir: Option<string>,
                          denoise: Denoiser, transcode: Transcoder, removable: Path -> bool)
    requires input in fs && input != TempPath(input, outputDir)
    requires
      var fs1 := RefineWithNoisereduce(fs, input, TempPath(input, outputDir), denoise).value;
      Succeeded(transcode(ShapeRequest(Lookup(fs1, TempPath(input, outputDir)))))
    requires !removable(TempPath(input, outputDir))
    ensures
      var fs1 := RefineWithNoisereduce(fs, input, TempPath(input, outputDir), denoise).value;
      var r := FullRefinementPipeline(fs, input, outputDir, denoise, transcode, removable);
      && r.path == input
      && TempPath(input, outputDir) in r.fs
      && r.fs[RefinedPath(input, outputDir)] == transcode(ShapeRequest(Some(fs1[TempPath(input, outputDir)]))).produced
  {
  }
}
