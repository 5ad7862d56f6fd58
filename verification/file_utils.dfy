/** `safe_filename` and `get_audio_files`. */
module FileUtils {
  import opened Outcomes
  import opened Paths

  /** The characters `safe_filename` rewrites: < > : " / \ | ? * */
  predicate Forbidden(c: char) {
    c == '<' || c == '>' || c == ':' || c == '"' || c == '/'
    || c == '\\' || c == '|' || c == '?' || c == '*'
  }

  /** `re.sub(r'[<>:"/\\|?*]', '_', filename)`: each forbidden character
      becomes an underscore, every other character stays where it is. */
  function SafeFilename(s: string): (r: string)
    ensures |r| == |s|
    ensures forall i :: 0 <= i < |s| && Forbidden(s[i]) ==> r[i] == '_'
    ensures forall i :: 0 <= i < |s| && !Forbidden(s[i]) ==> r[i] == s[i]
  {
    if s == [] then []
    else [if Forbidden(s[0]) then '_' else s[0]] + SafeFilename(s[1..])
  }

  /** The result holds no forbidden character, hence no path separator. */
  lemma SafeFilenameClean(s: string)
    ensures forall i :: 0 <= i < |SafeFilename(s)| ==> !Forbidden(SafeFilename(s)[i])
    ensures '/' !in SafeFilename(s) && '\\' !in SafeFilename(s)
  {
  }

  /** Sanitising twice is sanitising once. */
  lemma SafeFilenameIdempotent(s: string)
    ensures SafeFilename(SafeFilename(s)) == SafeFilename(s)
  {
  }

  /** A name without forbidden characters is left alone; in particular the
      parent-directory name ".." passes through, so sanitising does not
      prevent traversal. */
  lemma SafeFilenameKeepsClean(s: string)
    requires forall i :: 0 <= i < |s| ==> !Forbidden(s[i])
    ensures SafeFilename(s) == s
  {
  }

  lemma DotDotPassesThrough()
    ensures SafeFilename("..") == ".."
  {
  }

  /** One entry of `Path.iterdir()`, with what `is_file()` says of it. */
  datatype Entry = Entry(path: Path, isFile: bool)

  const DefaultExtensions: seq<string> := [".wav", ".mp3", ".flac", ".m4a"]

  /** Whether `get_audio_files` keeps an entry. */
  predicate Keeps(e: Entry, extensions: seq<string>) {
    e.isFile && Lower(Suffix(e.path.name)) in extensions
  }

  /** `a` can be obtained from `b` by deleting elements. */
  ghost predicate IsSubsequence<T>(a: seq<T>, b: seq<T>)
    decreases |b|
  {
    if a == [] then true
    else if b == [] then false
    else if a[0] == b[0] then IsSubsequence(a[1..], b[1..])
    else IsSubsequence(a, b[1..])
  }

  function ListedPaths(listing: seq<Entry>): (r: seq<Path>)
    ensures |r| == |listing|
    ensures forall k :: 0 <= k < |listing| ==> r[k] == listing[k].path
  {
    seq(|listing|, k requires 0 <= k < |listing| => listing[k].path)
  }

  /** Some entry of the listing that `get_audio_files` keeps has path `p`. */
  ghost predicate Selected(p: Path, listing: seq<Entry>, extensions: seq<string>) {
    exists e :: e in listing && Keeps(e, extensions) && e.path == p
  }

  function FilterAudio(listing: seq<Entry>, extensions: seq<string>): (r: seq<Path>)
    ensures forall k :: 0 <= k < |r| ==> Selected(r[k], listing, extensions)
    ensures forall e :: e in listing && Keeps(e, extensions) ==> e.path in r
  {
    if listing == [] then []
    else
      var rest := FilterAudio(listing[1..], extensions);
      assert forall e :: e in listing[1..] ==> e in listing;
      assert forall e :: e in listing ==> e == listing[0] || e in listing[1..];
      if Keeps(listing[0], extensions) then [listing[0].path] + rest else rest
  }

  /** `get_audio_files(directory, extensions)` over the directory's listing:
      exactly the kept entries' paths; `None` selects the default list. */
  function GetAudioFiles(listing: seq<Entry>, extensions: Option<seq<string>>): (r: seq<Path>)
    ensures forall e :: e in listing && Keeps(e, extensions.GetOr(DefaultExtensions)) ==> e.path in r
    ensures forall k :: 0 <= k < |r| ==> Selected(r[k], listing, extensions.GetOr(DefaultExtensions))
  {
    FilterAudio(listing, extensions.GetOr(DefaultExtensions))
  }

  /** The selection keeps listing order: it is a subsequence of the listing. */
  lemma {:induction false} GetAudioFilesSubsequence(listing: seq<Entry>, extensions: seq<string>)
    ensures IsSubsequence(FilterAudio(listing, extensions), ListedPaths(listing))
  {
    if listing != [] {
      GetAudioFilesSubsequence(listing[1..], extensions);
      assert ListedPaths(listing)[1..] == ListedPaths(listing[1..]);
      var rest := FilterAudio(listing[1..], extensions);
      if !Keeps(listing[0], extensions) {
        SubsequenceDropHead(rest, ListedPaths(listing));
      }
    }
  }

  /** Prepending an element to the longer sequence keeps a subsequence. */
  lemma {:induction false} SubsequenceDropHead<T>(a: seq<T>, b: seq<T>)
    requires b != [] && IsSubsequence(a, b[1..])
    ensures IsSubsequence(a, b)
    decreases |b|, 0
  {
    if a != [] && a[0] == b[0] && |b| > 1 {
      SubsequenceTail(a, b[1..]);
    }
  }

  /** Dropping the head of a non-empty subsequence keeps it a subsequence. */
  lemma {:induction false} SubsequenceTail<T>(a: seq<T>, b: seq<T>)
    requires a != [] && IsSubsequence(a, b)
    ensures IsSubsequence(a[1..], b)
    decreases |b|, 1
  {
    if a[1..] != [] {
      if a[0] != b[0] {
        SubsequenceTail(a, b[1..]);
      }
      SubsequenceDropHead(a[1..], b);
    }
  }

  /** With no list given, an entry with an upper-case ".WAV" suffix is kept. */
  lemma DefaultKeepsUpperCaseWav(dir: string)
    ensures GetAudioFiles([Entry(Path(dir, "song.WAV"), true)], None) == [Path(dir, "song.WAV")]
  {
    var name := "song.WAV";
    LastIndexOfUnique(name, '.', 4);
    assert name[4..] == ".WAV";
    var low := Lower(".WAV");
    assert low[0] == '.' && low[1] == 'w' && low[2] == 'a' && low[3] == 'v';
    assert low == ".wav";
    assert Keeps(Entry(Path(dir, name), true), DefaultExtensions);
    var listing := [Entry(Path(dir, name), true)];
    assert listing[1..] == [];
    assert FilterAudio(listing, DefaultExtensions) == [Path(dir, name)];
    var none: Option<seq<string>> := None;
    assert none.GetOr(DefaultExtensions) == DefaultExtensions;
  }
}
