/** `AudioSeparator`: channel normalisation of a decoded buffer, the
    channels-first layout handed to the separation model, the resample
    decision, and the binding of model outputs to stem files. */
module Separator {
  import opened Outcomes
  import opened Paths
  import opened Store

  /** The model's output order. */
  const StemNames: seq<string> := ["vocals", "drums", "bass", "other"]

  function Sum(row: seq<real>): real {
    if row == [] then 0.0 else row[0] + Sum(row[1..])
  }

  function Mean(row: seq<real>): real
    requires |row| > 0
  {
    Sum(row) / (|row| as real)
  }

  /** Column `c` of a matrix whose rows all reach past `c`. */
  function Column(m: Matrix, c: nat): (col: seq<real>)
    requires forall j :: 0 <= j < |m| ==> c < |m[j]|
    ensures |col| == |m|
    ensures forall j :: 0 <= j < |m| ==> col[j] == m[j][c]
  {
    seq(|m|, j requires 0 <= j < |m| => m[j][c])
  }

  /** The mean of every row. */
  function RowMeans(rows: Matrix, width: nat): (means: seq<real>)
    requires width >= 1 && Rectangular(rows, width)
    ensures |means| == |rows|
    ensures forall j :: 0 <= j < |rows| ==> means[j] == Mean(rows[j])
  {
    seq(|rows|, j requires 0 <= j < |rows| => Mean(rows[j]))
  }

  /** Number of channels after normalisation: two, except for a 2-D buffer
      with a single column, which no branch of the normalisation touches. */
  function NormalisedWidth(data: Audio): nat {
    if data.Mono? || data.channels >= 2 then 2 else data.channels
  }

  /** `_load_audio`'s reshaping: mono is duplicated into two columns, stereo
      is kept, more than two channels are averaged per row and the mean is
      duplicated, and a single-column 2-D buffer is left as it is. */
  function Normalise(data: Audio): (m: Matrix)
    ensures |m| == data.Length()
    ensures Rectangular(m, NormalisedWidth(data))
    ensures data.Mono? ==> Column(m, 0) == data.samples && Column(m, 1) == data.samples
    ensures data.Multi? && data.channels == 2 ==> m == data.rows
    ensures data.Multi? && data.channels > 2 ==>
      Column(m, 0) == RowMeans(data.rows, data.channels) && Column(m, 1) == RowMeans(data.rows, data.channels)
    ensures data.Multi? && data.channels < 2 ==> m == data.rows
  {
    match data
    case Mono(x) => seq(|x|, j requires 0 <= j < |x| => [x[j], x[j]])
    case Multi(rows, k) =>
      if k == 2 then rows
      else if k > 2 then seq(|rows|, j requires 0 <= j < |rows| => [Mean(rows[j]), Mean(rows[j])])
      else rows
  }

  /** For a non-empty buffer, the result is two-channel exactly when the input
      is one-dimensional or has at least two columns. */
  lemma NormaliseStereoIff(data: Audio)
    requires data.Length() > 0
    ensures Rectangular(Normalise(data), 2) <==> data.Mono? || data.channels >= 2
  {
    if data.Multi? && data.channels < 2 {
      assert |Normalise(data)[0]| == 1;
    }
  }

  /** A four-channel frame becomes the flat average of its four samples, twice. */
  lemma FourChannelAverage()
    ensures Normalise(Multi([[1.0, 2.0, 3.0, 6.0]], 4)) == [[3.0, 3.0]]
  {
  }

  /** `tensor.transpose(0, 1)` of a `|m|` x `width` matrix. */
  function Transpose(m: Matrix, width: nat): (t: Matrix)
    requires Rectangular(m, width)
    ensures |t| == width && Rectangular(t, |m|)
    ensures forall c, j :: 0 <= c < width && 0 <= j < |m| ==> t[c][j] == m[j][c]
  {
    seq(width, c requires 0 <= c < width => seq(|m|, j requires 0 <= j < |m| => m[j][c]))
  }

  /** Transposing back restores every element: [j][c] round-trips. */
  lemma TransposeInvolution(m: Matrix, width: nat)
    requires Rectangular(m, width)
    ensures Transpose(Transpose(m, width), |m|) == m
  {
    var back := Transpose(Transpose(m, width), |m|);
    forall j | 0 <= j < |m|
      ensures back[j] == m[j]
    {
    }
  }

  /** `torchaudio.transforms.Resample(from, to)` applied to a channels-first buffer. */
  type Resampler = (Matrix, int, int) -> Matrix

  /** `_load_audio`: read the file, normalise it, lay it out channels-first,
      and resample only when the file's rate differs from the model's. */
  function LoadAudio(fs: FileSystem, path: Path, modelRate: int, resample: Resampler): (r: Result<Matrix>)
    ensures r.Ok? <==> path in fs && fs[path].Sound?
    ensures r.Ok? && fs[path].rate == modelRate ==>
      var n := Normalise(fs[path].data);
      |r.value| == NormalisedWidth(fs[path].data) && Rectangular(r.value, |n|)
      && forall c, j :: 0 <= c < |r.value| && 0 <= j < |n| ==> r.value[c][j] == n[j][c]
    ensures r.Ok? && fs[path].rate != modelRate ==>
      r.value == resample(Transpose(Normalise(fs[path].data), NormalisedWidth(fs[path].data)), fs[path].rate, modelRate)
  {
    match Lookup(fs, path)
    case Some(Sound(data, sr)) =>
      var wav := Transpose(Normalise(data), NormalisedWidth(data));
      Ok(if sr != modelRate then resample(wav, sr, modelRate) else wav)
    case _ => Err("unreadable audio file")
  }

  /** The per-stem tensor `apply_model` returns for a batch of one:
      stems x channels x samples. */
  datatype Sources = Sources(stems: seq<Matrix>, channels: nat, samples: nat) {
    predicate WellShaped() {
      && channels >= 1
      && forall i :: 0 <= i < |stems| ==> |stems[i]| == channels && Rectangular(stems[i], samples)
    }
  }

  type Tensor = s: Sources | s.WellShaped() witness Sources([], 1, 0)

  /** `apply_model` on a channels-first buffer; it may raise. */
  type Inference = Matrix -> Result<Tensor>

  /** Stem `i` laid out samples x channels, as `soundfile.write` receives it. */
  function StemAudio(s: Tensor, i: nat): (a: Audio)
    requires i < |s.stems|
    ensures a.Multi? && a.channels == s.channels && |a.rows| == s.samples
  {
    Multi(Transpose(s.stems[i], s.samples), s.channels)
  }

  datatype StemFile = StemFile(stem: string, path: Path)

  /** `output_dir / f"{audio_path.stem}_{stem}.wav"` */
  function StemPath(outDir: string, input: Path, stem: string): Path {
    Path(outDir, Stem(input.name) + "_" + stem + ".wav")
  }

  lemma StemNameInjective(base: string, s1: string, s2: string)
    requires base + "_" + s1 + ".wav" == base + "_" + s2 + ".wav"
    ensures s1 == s2
  {
    var n1 := base + "_" + s1 + ".wav";
    var n2 := base + "_" + s2 + ".wav";
    assert |s1| == |s2|;
    assert s1 == n1[|base| + 1..|base| + 1 + |s1|];
    assert s2 == n2[|base| + 1..|base| + 1 + |s2|];
  }

  /** The four stem files never overwrite one another. */
  lemma StemPathsDistinct(outDir: string, input: Path)
    ensures forall i, j :: 0 <= i < j < |StemNames| ==>
      StemPath(outDir, input, StemNames[i]) != StemPath(outDir, input, StemNames[j])
  {
    forall i, j | 0 <= i < j < |StemNames|
      ensures StemPath(outDir, input, StemNames[i]) != StemPath(outDir, input, StemNames[j])
    {
      if StemPath(outDir, input, StemNames[i]) == StemPath(outDir, input, StemNames[j]) {
        StemNameInjective(Stem(input.name), StemNames[i], StemNames[j]);
      }
    }
  }

  /** The four output paths, in stem order. */
  function StemPaths(outDir: string, input: Path): (ps: seq<Path>)
    ensures |ps| == |StemNames|
    ensures forall i :: 0 <= i < |StemNames| ==> ps[i] == StemPath(outDir, input, StemNames[i])
    ensures forall i, j :: 0 <= i < j < |ps| ==> ps[i] != ps[j]
  {
    StemPathsDistinct(outDir, input);
    seq(|StemNames|, i requires 0 <= i < |StemNames| => StemPath(outDir, input, StemNames[i]))
  }

  /** Writes `cs[i]` to `ps[i]`, in order, for every `i`. */
  function WriteFiles(fs: FileSystem, ps: seq<Path>, cs: seq<Content>): (r: FileSystem)
    requires |ps| == |cs|
    requires forall i, j :: 0 <= i < j < |ps| ==> ps[i] != ps[j]
    ensures forall p :: p in r <==> p in fs || p in ps
    ensures forall i :: 0 <= i < |ps| ==> ps[i] in r && r[ps[i]] == cs[i]
    ensures forall p :: p in fs && p !in ps ==> r[p] == fs[p]
    decreases |ps|
  {
    if ps == [] then fs
    else
      var k := |ps| - 1;
      var before := WriteFiles(fs, ps[..k], cs[..k]);
      assert ps == ps[..k] + [ps[k]];
      assert forall i :: 0 <= i < k ==> ps[..k][i] == ps[i] && cs[..k][i] == cs[i];
      before[ps[k] := cs[k]]
  }

  /** The files the loop in `separate` has written after `n` rounds: stem `i`
      of the model output, transposed back to samples x channels, at the
      model's rate, under stem name `i`, for every `i < n`. */
  function WriteStems(fs: FileSystem, outDir: string, input: Path, s: Tensor, modelRate: int, n: nat): (r: FileSystem)
    requires n <= |StemNames| && n <= |s.stems|
    ensures var ps := StemPaths(outDir, input);
      forall p :: p in r <==> p in fs || p in ps[..n]
    ensures var ps := StemPaths(outDir, input);
      forall i :: 0 <= i < n ==> ps[i] in r && r[ps[i]] == Sound(StemAudio(s, i), modelRate)
    ensures var ps := StemPaths(outDir, input);
      forall p :: p in fs && p !in ps[..n] ==> r[p] == fs[p]
  {
    var all := StemPaths(outDir, input);
    var ps := all[..n];
    var cs := seq(n, i requires 0 <= i < n => Sound(StemAudio(s, i), modelRate));
    assert forall i :: 0 <= i < n ==> ps[i] == all[i];
    WriteFiles(fs, ps, cs)
  }

  /** What `separate` returns or raises, and the filesystem it leaves
      behind either way. */
  datatype Separation = Separation(result: Result<seq<StemFile>>, fs: FileSystem)

  /** The model output for the loaded input, or the error loading or
      inference raised. */
  function ModelOutput(fs: FileSystem, input: Path, modelRate: int, resample: Resampler,
                       infer: Inference): (out: Result<Tensor>)
    ensures LoadAudio(fs, input, modelRate, resample).Err? ==> out.Err?
    ensures LoadAudio(fs, input, modelRate, resample).Ok? ==> out == infer(LoadAudio(fs, input, modelRate, resample).value)
  {
    match LoadAudio(fs, input, modelRate, resample)
    case Err(e) => Err(e)
    case Ok(wav) => infer(wav)
  }

  /** `result_files`: stem name `i` bound to its output path, in model order. */
  function StemFiles(outDir: string, input: Path): (files: seq<StemFile>)
    ensures |files| == |StemNames|
    ensures forall i :: 0 <= i < |StemNames| ==> files[i] == StemFile(StemNames[i], StemPaths(outDir, input)[i])
  {
    var ps := StemPaths(outDir, input);
    seq(|StemNames|, i requires 0 <= i < |StemNames| => StemFile(StemNames[i], ps[i]))
  }

  /** `separate`: load, run the model, then write stem `i` under stem name `i`
      in model order. A model output with fewer than four stems raises an
      index error after the stems it does have are already written. */
  function Separate(fs: FileSystem, input: Path, outDir: string, modelRate: int,
                    resample: Resampler, infer: Inference): (r: Separation)
    // loading or inference raising leaves every file as it was
    ensures ModelOutput(fs, input, modelRate, resample, infer).Err? ==>
      r == Separation(Err(ModelOutput(fs, input, modelRate, resample, infer).message), fs)
    // a short model output raises after writing the stems it has
    ensures var out := ModelOutput(fs, input, modelRate, resample, infer);
      out.Ok? && |out.value.stems| < |StemNames| ==>
        r.result.Err? && r.fs == WriteStems(fs, outDir, input, out.value, modelRate, |out.value.stems|)
    // otherwise all four stems are written and bound in model order
    ensures var out := ModelOutput(fs, input, modelRate, resample, infer);
      r.result.Ok? <==> out.Ok? && |out.value.stems| >= |StemNames|
    ensures r.result.Ok? ==>
      && r.result.value == StemFiles(outDir, input)
      && r.fs == WriteStems(fs, outDir, input, ModelOutput(fs, input, modelRate, resample, infer).value, modelRate, 4)
  {
    match ModelOutput(fs, input, modelRate, resample, infer)
    case Err(e) => Separation(Err(e), fs)
    case Ok(sources) =>
      if |sources.stems| < |StemNames| then
        Separation(Err("index out of range"), WriteStems(fs, outDir, input, sources, modelRate, |sources.stems|))
      else Separation(Ok(StemFiles(outDir, input)), WriteStems(fs, outDir, input, sources, modelRate, 4))
  }

  /** A model that returns only `k < 4` stems still leaves the first `k` stem
      files behind, and nothing else changes. */
  lemma ShortOutputLeavesPartialStems(fs: FileSystem, input: Path, outDir: string, modelRate: int,
                                      resample: Resampler, infer: Inference, k: nat)
    requires LoadAudio(fs, input, modelRate, resample).Ok?
    requires var out := infer(LoadAudio(fs, input, modelRate, resample).value);
      out.Ok? && |out.value.stems| == k < |StemNames|
    ensures var r := Separate(fs, input, outDir, modelRate, resample, infer);
      var ps := StemPaths(outDir, input);
      && r.result.Err?
      && (forall i :: 0 <= i < k ==> ps[i] in r.fs)
      && (forall i :: k <= i < |StemNames| ==> (ps[i] in r.fs <==> ps[i] in fs))
      && (forall p :: p in fs && p !in ps ==> p in r.fs && r.fs[p] == fs[p])
  {
    var ps := StemPaths(outDir, input);
    var out := infer(LoadAudio(fs, input, modelRate, resample).value).value;
    var r := WriteStems(fs, outDir, input, out, modelRate, k);
    assert Separate(fs, input, outDir, modelRate, resample, infer).fs == r;
    forall p | p in fs && p !in ps
      ensures p !in ps[..k]
    {
      assert forall j :: 0 <= j < k ==> ps[..k][j] == ps[j];
    }
  }

  /** A model that hands its (two-channel) input back as every stem. */
  function EchoModel(wav: Matrix): Result<Tensor> {
    if |wav| == 2 && Rectangular(wav, |wav[0]|) then Ok(Sources([wav, wav, wav, wav], 2, |wav[0]|))
    else Err("unexpected shape")
  }

  /** With an echoing model and no resampling, each stem file holds exactly
      the normalised buffer: transposing for the model and back again loses
      nothing. */
  lemma SeparateRoundTrip(fs: FileSystem, input: Path, outDir: string, modelRate: int, resample: Resampler)
    requires input in fs && fs[input].Sound? && fs[input].rate == modelRate
    requires NormalisedWidth(fs[input].data) == 2
    ensures Separate(fs, input, outDir, modelRate, resample, EchoModel).result.Ok?
    ensures forall i :: 0 <= i < 4 ==>
      Separate(fs, input, outDir, modelRate, resample, EchoModel).fs[StemPaths(outDir, input)[i]]
        == Sound(Multi(Normalise(fs[input].data), 2), modelRate)
  {
    var n := Normalise(fs[input].data);
    var wav := LoadAudio(fs, input, modelRate, resample).value;
    assert wav == Transpose(n, 2);
    var s: Tensor := Sources([wav, wav, wav, wav], 2, |n|);
    assert EchoModel(wav) == Ok(s);
    TransposeInvolution(n, 2);
    assert forall i :: 0 <= i < 4 ==> StemAudio(s, i) == Multi(n, 2);
    var written := WriteStems(fs, outDir, input, s, modelRate, 4);
    assert Separate(fs, input, outDir, modelRate, resample, EchoModel).fs == written;
  }
}
