/** The decisions of the HTTP handlers and the command-line entry point,
    with the web framework, the downloader and the separator reduced to
    the values they hand back. */
module Api {
  import opened Outcomes
  import opened Paths
  import opened Store
  import opened FileUtils
  import Separator

  /** What `request.json` yields: it raises for a body it cannot parse,
      is `None` for JSON null, or is an object (its string fields). */
  datatype Body = Unparsable(message: string) | NoJson | Object(fields: map<string, string>)

  /** The collaborators the handlers call, in order. */
  datatype Call = DownloadCall(url: string) | SeparateCall(audio: Path)

  /** The JSON reply: the success shape, or an error status and message. */
  datatype Reply =
    | Separated(original: string, separated: seq<(string, string)>, vocals: string, instrumental: string)
    | Failure(status: nat, error: string)

  datatype Handled = Handled(reply: Reply, calls: seq<Call>)

  const UrlMissing: string := "URL do YouTube não fornecida"
  const DownloadFailed: string := "Falha ao baixar áudio do YouTube"

  /** `separated_files[key]`: the path stored under `key`, if any. */
  function FindStem(stems: seq<Separator.StemFile>, key: string): (r: Option<Path>)
    ensures r.None? <==> forall i :: 0 <= i < |stems| ==> stems[i].stem != key
    ensures r.Some? ==> exists i :: 0 <= i < |stems| && stems[i] == Separator.StemFile(key, r.value)
  {
    if stems == [] then None
    else if stems[0].stem == key then Some(stems[0].path)
    else
      var rest := FindStem(stems[1..], key);
      assert forall i :: 0 < i < |stems| ==> stems[i] == stems[1..][i - 1];
      rest
  }

  /** `{k: str(v) for k, v in separated_files.items()}` */
  function Stringify(stems: seq<Separator.StemFile>): (r: seq<(string, string)>)
    ensures |r| == |stems|
    ensures forall i :: 0 <= i < |stems| ==> r[i] == (stems[i].stem, ToString(stems[i].path))
  {
    seq(|stems|, i requires 0 <= i < |stems| => (stems[i].stem, ToString(stems[i].path)))
  }

  /** `separate_audio`: validation, then download, then separation, then the
      reply; any exception after parsing becomes a 500 with its text. */
  function SeparateAudio(body: Body, download: string -> Option<Path>,
                         separate: Path -> Result<seq<Separator.StemFile>>): (h: Handled)
    // a missing body or missing URL is a 400 and nothing is called
    ensures (body.NoJson? || (body.Object? && "youtube_url" !in body.fields)) <==>
      h == Handled(Failure(400, UrlMissing), [])
    ensures body.Unparsable? ==> h == Handled(Failure(500, body.message), [])
    // a failed download is a 500 and the separator is not called
    ensures body.Object? && "youtube_url" in body.fields && download(body.fields["youtube_url"]).None? ==>
      h == Handled(Failure(500, DownloadFailed), [DownloadCall(body.fields["youtube_url"])])
    // the separator is called only on the downloaded file
    ensures |h.calls| == 2 ==>
      body.Object? && "youtube_url" in body.fields
      && download(body.fields["youtube_url"]).Some?
      && h.calls == [DownloadCall(body.fields["youtube_url"]), SeparateCall(download(body.fields["youtube_url"]).value)]
    ensures |h.calls| <= 2
    // on success the reply mirrors the separator's map
    ensures h.reply.Separated? ==>
      && |h.calls| == 2
      && var audio := h.calls[1].audio;
      && var stems := separate(audio);
      && stems.Ok?
      && h.reply.original == ToString(audio)
      && h.reply.separated == Stringify(stems.value)
      && FindStem(stems.value, "vocals").Some? && h.reply.vocals == ToString(FindStem(stems.value, "vocals").value)
      && FindStem(stems.value, "drums").Some? && h.reply.instrumental == ToString(FindStem(stems.value, "drums").value)
    // a separator exception surfaces as a 500 carrying its text
    ensures |h.calls| == 2 && separate(h.calls[1].audio).Err? ==>
      h.reply == Failure(500, separate(h.calls[1].audio).message)
    // a successful download is always followed by separating that file
    ensures body.Object? && "youtube_url" in body.fields && download(body.fields["youtube_url"]).Some? ==>
      var url := body.fields["youtube_url"];
      h.calls == [DownloadCall(url), SeparateCall(download(url).value)]
    // a separator result is indexed by "vocals", then by "drums": a missing
    // key raises a KeyError whose text is the quoted key
    ensures body.Object? && "youtube_url" in body.fields && download(body.fields["youtube_url"]).Some? ==>
      var stems := separate(download(body.fields["youtube_url"]).value);
      stems.Ok? ==>
        && (FindStem(stems.value, "vocals").None? ==> h.reply == Failure(500, "'vocals'"))
        && (FindStem(stems.value, "vocals").Some? && FindStem(stems.value, "drums").None? ==>
              h.reply == Failure(500, "'drums'"))
        && (FindStem(stems.value, "vocals").Some? && FindStem(stems.value, "drums").Some? ==> h.reply.Separated?)
  {
    match body
    case Unparsable(message) => Handled(Failure(500, message), [])
    case NoJson => Handled(Failure(400, UrlMissing), [])
    case Object(fields) =>
      if "youtube_url" !in fields then Handled(Failure(400, UrlMissing), [])
      else
        var url := fields["youtube_url"];
        match download(url)
        case None => Handled(Failure(500, DownloadFailed), [DownloadCall(url)])
        case Some(audio) =>
          var calls := [DownloadCall(url), SeparateCall(audio)];
          match separate(audio)
          case Err(message) => Handled(Failure(500, message), calls)
          case Ok(stems) =>
            match FindStem(stems, "vocals")
            case None => Handled(Failure(500, "'vocals'"), calls)
            case Some(vocals) =>
              match FindStem(stems, "drums")
              case None => Handled(Failure(500, "'drums'"), calls)
              case Some(drums) =>
                Handled(Separated(ToString(audio), Stringify(stems), ToString(vocals), ToString(drums)), calls)
  }

  /** The separator's stem list, its filesystem effect set aside. */
  function SeparatedStems(fs: FileSystem, audio: Path, modelRate: int, resample: Separator.Resampler,
                          infer: Separator.Inference): Result<seq<Separator.StemFile>> {
    Separator.Separate(fs, audio, "separated", modelRate, resample, infer).result
  }

  /** The separator's stem list answers "vocals" with the vocals stem file
      and "drums" with the drums stem file. */
  lemma StemFilesLookup(outDir: string, input: Path)
    ensures FindStem(Separator.StemFiles(outDir, input), "vocals") == Some(Separator.StemPath(outDir, input, "vocals"))
    ensures FindStem(Separator.StemFiles(outDir, input), "drums") == Some(Separator.StemPath(outDir, input, "drums"))
  {
    var stems := Separator.StemFiles(outDir, input);
    assert stems[0] == Separator.StemFile("vocals", Separator.StemPath(outDir, input, "vocals"));
    assert stems[1..][0] == Separator.StemFile("drums", Separator.StemPath(outDir, input, "drums"));
  }

  /** End to end: with the separator model in place, a successful request
      answers four stems, the vocals stem as `vocals` and the drums stem as
      `instrumental`. */
  lemma SeparateAudioWithSeparator(fs: FileSystem, url: string, audio: Path, modelRate: int,
                                   resample: Separator.Resampler, infer: Separator.Inference)
    requires var out := Separator.ModelOutput(fs, audio, modelRate, resample, infer);
      out.Ok? && |out.value.stems| >= 4
    ensures
      var h := SeparateAudio(Object(map["youtube_url" := url]), _ => Some(audio),
                             p => SeparatedStems(fs, p, modelRate, resample, infer));
      && h.reply.Separated?
      && |h.reply.separated| == 4
      && h.reply.vocals == ToString(Separator.StemPath("separated", audio, "vocals"))
      && h.reply.instrumental == ToString(Separator.StemPath("separated", audio, "drums"))
  {
    var stems := Separator.StemFiles("separated", audio);
    var separate := p => SeparatedStems(fs, p, modelRate, resample, infer);
    assert separate(audio) == Ok(stems);
    StemFilesLookup("separated", audio);
  }

  /** The places `download_file` looks, in order. */
  function Candidates(safe: string): seq<Path> {
    [Path("", safe), Path("downloads", safe), Path("separated", safe)]
  }

  /** Reference lookup: the first candidate that exists. */
  function FirstExisting(candidates: seq<Path>, present: Path -> bool): (r: Option<Path>)
    ensures r.None? <==> forall k :: 0 <= k < |candidates| ==> !present(candidates[k])
    ensures r.Some? ==> present(r.value)
    ensures r.Some? ==> exists i :: 0 <= i < |candidates| && candidates[i] == r.value &&
                                    forall k :: 0 <= k < i ==> !present(candidates[k])
  {
    if candidates == [] then None
    else if present(candidates[0]) then Some(candidates[0])
    else
      var rest := FirstExisting(candidates[1..], present);
      assert forall k :: 0 < k < |candidates| ==> candidates[k] == candidates[1..][k - 1];
      if rest.Some? then
        var i :| 0 <= i < |candidates[1..]| && candidates[1..][i] == rest.value &&
                 forall k :: 0 <= k < i ==> !present(candidates[1..][k]);
        assert candidates[i + 1] == rest.value;
        rest
      else rest
  }

  datatype FileReply = SendFile(path: Path) | NotFound

  /** `download_file`: sanitise the name, then try it as is, under
      `downloads/`, under `separated/`; 404 when none exists. */
  function DownloadFile(filename: string, present: Path -> bool): (r: FileReply)
    ensures r.SendFile? ==> r.path.name == SafeFilename(filename) && present(r.path)
  {
    var safe := SafeFilename(filename);
    if present(Path("", safe)) then SendFile(Path("", safe))
    else if present(Path("downloads", safe)) then SendFile(Path("downloads", safe))
    else if present(Path("separated", safe)) then SendFile(Path("separated", safe))
    else NotFound
  }

  /** `download_file` serves exactly the first existing candidate, and answers
      404 exactly when no candidate exists. */
  lemma DownloadFileFirstWins(filename: string, present: Path -> bool)
    ensures
      var found := FirstExisting(Candidates(SafeFilename(filename)), present);
      && (DownloadFile(filename, present).NotFound? <==> found.None?)
      && (found.Some? ==> DownloadFile(filename, present) == SendFile(found.value))
  {
    var c := Candidates(SafeFilename(filename));
    assert FirstExisting(c[1..][1..][1..], present) == None;
    assert FirstExisting(c[1..][1..], present) == if present(c[2]) then Some(c[2]) else None;
    assert FirstExisting(c[1..], present) == if present(c[1]) then Some(c[1]) else FirstExisting(c[1..][1..], present);
  }

  /** What `cli_handler` does: the calls made, the lines printed, and the
      error logged, if any. */
  datatype CliRun = CliRun(calls: seq<Call>, printed: seq<string>, logged: Option<string>)

  /** One `"  <stem>: <path>"` line per entry, in map order. */
  function Listing(stems: seq<Separator.StemFile>): (lines: seq<string>)
    ensures |lines| == |stems|
    ensures forall i :: 0 <= i < |stems| ==> lines[i] == "  " + stems[i].stem + ": " + ToString(stems[i].path)
  {
    seq(|stems|, i requires 0 <= i < |stems| => "  " + stems[i].stem + ": " + ToString(stems[i].path))
  }

  /** `cli_handler` after argument parsing. */
  function CliHandler(url: string, download: string -> Option<Path>,
                      separate: Path -> Result<seq<Separator.StemFile>>): (r: CliRun)
    // a failed download logs and returns: no separation, no listing
    ensures download(url).None? <==> r == CliRun([DownloadCall(url)], [], Some("Falha no download do áudio"))
    // the listing appears only after a successful separation, one line per stem
    ensures r.printed != [] <==> download(url).Some? && separate(download(url).value).Ok?
    ensures r.printed != [] ==> |r.printed| == 3 + |separate(download(url).value).value| && r.logged.None?
    ensures download(url).Some? ==> r.calls == [DownloadCall(url), SeparateCall(download(url).value)]
    // the listing is the success header followed by one line per stem
    ensures r.printed != [] ==>
      r.printed == ["Processamento concluído com sucesso!", "Arquivo original: " + ToString(download(url).value),
                    "Arquivos separados:"] + Listing(separate(download(url).value).value)
    // a separator exception is logged with its text
    ensures download(url).Some? && separate(download(url).value).Err? ==>
      r.printed == [] && r.logged == Some("Erro: " + separate(download(url).value).message)
  {
    match download(url)
    case None => CliRun([DownloadCall(url)], [], Some("Falha no download do áudio"))
    case Some(audio) =>
      var calls := [DownloadCall(url), SeparateCall(audio)];
      match separate(audio)
      case Err(message) => CliRun(calls, [], Some("Erro: " + message))
      case Ok(stems) =>
        var header := ["Processamento concluído com sucesso!", "Arquivo original: " + ToString(audio), "Arquivos separados:"];
        CliRun(calls, header + Listing(stems), None)
  }

  /** The command line and the HTTP handler make the same calls for the same
      URL. The command line prints its listing whenever the separator
      returns, so it also succeeds where the handler answers 500 for a
      missing "vocals" or "drums" entry. */
  lemma CliHandlerAgreesWithApi(url: string, download: string -> Option<Path>,
                                separate: Path -> Result<seq<Separator.StemFile>>)
    ensures
      var h := SeparateAudio(Object(map["youtube_url" := url]), download, separate);
      var c := CliHandler(url, download, separate);
      && h.calls == c.calls
      && (h.reply.Separated? ==> c.printed != [] && c.logged.None?)
      && (c.printed != [] && !h.reply.Separated? ==>
            h.reply == Failure(500, "'vocals'") || h.reply == Failure(500, "'drums'"))
      && (c.printed == [] ==> h.reply.Failure? && h.reply.status == 500)
  {
  }

  /** A separator that returns an empty map: the command line reports
      success, the handler answers 500 "'vocals'". */
  lemma CliSucceedsWhereApiFails(url: string)
    ensures
      var download := (u: string) => Some(Path("downloads", "a.wav"));
      var separate := (p: Path) => Ok([]);
      && CliHandler(url, download, separate).printed != []
      && SeparateAudio(Object(map["youtube_url" := url]), download, separate).reply == Failure(500, "'vocals'")
  {
  }
}
