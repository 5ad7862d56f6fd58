/** Audio buffers as `soundfile` reads and writes them, and the abstract
    filesystem that every external tool reads from and writes to. */
module Store {
  import opened Outcomes
  import opened Paths

  /** Samples are exact reals, so row means are exact. */
  type Matrix = seq<seq<real>>

  /** Every row of `m` has `width` entries. */
  predicate Rectangular(m: Matrix, width: nat) {
    forall j :: 0 <= j < |m| ==> |m[j]| == width
  }

  /** The array `soundfile.read` returns: one-dimensional for a mono file,
      samples x channels otherwise. */
  datatype AudioData =
    | Mono(samples: seq<real>)
    | Multi(rows: Matrix, channels: nat)
  {
    /** Arrays are rectangular, and a sound file has at least one channel. */
    predicate WellFormed() {
      Multi? ==> channels >= 1 && Rectangular(rows, channels)
    }

    /** `len(data)`: the number of samples (rows). */
    function Length(): nat {
      if Mono? then |samples| else |rows|
    }
  }

  type Audio = a: AudioData | a.WellFormed() witness Mono([])

  /** A file is either decodable audio at a sample rate, or an encoded blob
      (an m4a/webm download) that only the transcoder can read. */
  datatype Content = Sound(data: Audio, rate: int) | Encoded(tag: string)

  type FileSystem = map<Path, Content>

  function Lookup(fs: FileSystem, p: Path): Option<Content> {
    if p in fs then Some(fs[p]) else None
  }

  /** `shutil.copy2`: raises when the source is missing or is the destination. */
  function Copy(fs: FileSystem, src: Path, dst: Path): (r: Result<FileSystem>)
    ensures r.Ok? <==> src in fs && src != dst
    ensures r.Ok? ==> r.value.Keys == fs.Keys + {dst} && r.value[dst] == fs[src]
    ensures r.Ok? ==> forall p :: p in fs && p != dst ==> r.value[p] == fs[p]
  {
    if src !in fs then Err("No such file or directory")
    else if src == dst then Err("are the same file")
    else Ok(fs[dst := fs[src]])
  }

  /** `Path.unlink` guarded by `Path.exists`. */
  function RemoveIfExists(fs: FileSystem, p: Path): (r: FileSystem)
    ensures p !in r && r.Keys == fs.Keys - {p}
    ensures forall q :: q in r ==> r[q] == fs[q]
  {
    fs - {p}
  }

  /** The request handed to the external transcoder: the input file's content
      (absent when the file does not exist), the option list and the timeout
      in seconds. */
  datatype TranscodeRequest = TranscodeRequest(input: Option<Content>, options: seq<string>, timeout: nat)

  /** Outcome of `subprocess.run`: an exit code and the file written on
      success, the timeout expiring, or the executable failing to start. */
  datatype Run = Exited(code: int, produced: Content) | TimedOut | LaunchFailed

  type Transcoder = TranscodeRequest -> Run

  /** The callers treat exit code 0, and only that, as success. */
  predicate Succeeded(run: Run) {
    run.Exited? && run.code == 0
  }
}
