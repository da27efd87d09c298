/** `KnownApplications`: fills the issuer registry that `JwtService` reads.
    The service's own issuer comes first; then every applications file is
    read line by line, with per-file defaults for the key and algorithm
    type, and each `KEY:` line registers one more issuer. */
module Apps {
  import opened Domain
  import opened Text

  /** The exceptions loading can raise. Key decoding failures carry the
      message of the key library. */
  datatype LoadFailure =
    | IllegalStateException(message: string)
    | IllegalArgumentException(message: string)
    | KeyDecodingFailed(message: string)

  /** The key and algorithm libraries, left abstract: `decodeKey(algoType,
      text)` stands for Base64 decoding followed by `KeyFactory` (and the cast
      to an EC key); `supported` are the algorithm names `AlgorithmFactory`
      can build. */
  datatype KeyTools = KeyTools(decodeKey: (string, string) -> Result<PublicKey, string>, supported: set<string>)

  /** `AlgorithmFactory.createAlgorithm`: an unknown name is an error. */
  function CreateAlgorithm(tools: KeyTools, name: string, key: PublicKey): (r: Result<Algorithm, LoadFailure>)
    ensures r.Ok? <==> name in tools.supported
    ensures r.Ok? ==> r.value == Algorithm(name, key)
    ensures r.Err? ==> r.error == IllegalArgumentException("Unsupported algorithm: " + name)
  {
    if name in tools.supported then Ok(Algorithm(name, key))
    else Err(IllegalArgumentException("Unsupported algorithm: " + name))
  }

  /** The registry and the per-file state. */
  datatype FileState = FileState(algorithms: map<string, Algorithm>, id: Option<string>, algoType: string, algo: string)

  /** Each file starts without an id, with type `EC` and algorithm `ECDSA256`. */
  function FileStart(algorithms: map<string, Algorithm>): FileState {
    FileState(algorithms, None, "EC", "ECDSA256")
  }

  /** Blank lines and `#`, `//` or `--` comments (after trimming). */
  predicate Ignored(line: string) {
    AllWhitespace(line) || StartsWith(line, "#") || StartsWith(line, "//") || StartsWith(line, "--")
  }

  function UnknownLine(line: string, directory: string): LoadFailure {
    IllegalStateException("Unknown line: " + line + " in the file '" + directory + "'")
  }

  function MultipleDefined(id: string): LoadFailure {
    IllegalStateException("Application " + id + " multiple defined")
  }

  const IdNotSet := IllegalStateException("ID not set for application key")

  /** A `KEY:` line with key text `keyText`: the key is decoded first, then
      the id is required, then it must be new, then the algorithm is built. */
  function KeyLine(st: FileState, keyText: string, tools: KeyTools): (r: Result<FileState, LoadFailure>)
    ensures r.Ok? ==> && st.id.Some? && st.id.value !in st.algorithms
                      && tools.decodeKey(st.algoType, keyText).Ok? && st.algo in tools.supported
                      && r.value == st.(algorithms := st.algorithms[st.id.value := Algorithm(st.algo, tools.decodeKey(st.algoType, keyText).value)])
  {
    match tools.decodeKey(st.algoType, keyText)
    case Err(message) => Err(KeyDecodingFailed(message))
    case Ok(key) =>
      if st.id.None? then Err(IdNotSet)
      else if st.id.value in st.algorithms then Err(MultipleDefined(st.id.value))
      else
        match CreateAlgorithm(tools, st.algo, key)
        case Err(e) => Err(e)
        case Ok(algorithm) => Ok(st.(algorithms := st.algorithms[st.id.value := algorithm]))
  }

  /** `b` holds every entry of `a` unchanged. */
  ghost predicate Extends(b: map<string, Algorithm>, a: map<string, Algorithm>) {
    forall k :: k in a ==> k in b && b[k] == a[k]
  }

  /** One trimmed line, matched against the cases in order; `directory` is
      the path the unknown-line message names, the applications directory. */
  function LineAction(st: FileState, line: string, directory: string, tools: KeyTools): (r: Result<FileState, LoadFailure>)
    ensures r.Ok? ==> Extends(r.value.algorithms, st.algorithms)
    ensures r.Ok? && !StartsWith(line, "KEY:") ==> r.value.algorithms == st.algorithms
  {
    if Ignored(line) then Ok(st)
    else if StartsWith(line, "ID:") then Ok(st.(id := Some(Trim(line[3..]))))
    else if StartsWith(line, "ALGO:") then Ok(st.(algo := Trim(line[5..])))
    else if StartsWith(line, "ALGO_TYPE:") then Ok(st.(algoType := Trim(line[10..])))
    else if StartsWith(line, "KEY:") then KeyLine(st, Trim(line[4..]), tools)
    else Err(UnknownLine(line, directory))
  }

  /** One line of an applications file: it is trimmed first. */
  function AppLine(st: FileState, fullLine: string, directory: string, tools: KeyTools): (r: Result<FileState, LoadFailure>)
    ensures r.Ok? ==> Extends(r.value.algorithms, st.algorithms)
  {
    LineAction(st, Trim(fullLine), directory, tools)
  }

  datatype FileRun = FileRun(state: FileState, failure: Option<LoadFailure>)

  /** The lines of one file in order; the first failing line ends it, and
      then the state is the one that line failed on. Entries are only ever
      added. */
  function AppLines(st: FileState, lines: seq<string>, directory: string, tools: KeyTools): (r: FileRun)
    ensures Extends(r.state.algorithms, st.algorithms)
    ensures r.failure.Some? ==>
              exists k :: 0 <= k < |lines| && AppLine(r.state, lines[k], directory, tools) == Err(r.failure.value)
    decreases |lines|
  {
    if lines == [] then FileRun(st, None)
    else
      match AppLine(st, lines[0], directory, tools)
      case Err(e) => FileRun(st, Some(e))
      case Ok(next) => AppLines(next, lines[1..], directory, tools)
  }

  datatype LoadRun = LoadRun(algorithms: map<string, Algorithm>, failure: Option<LoadFailure>)

  /** The files in order, each from its defaults; a failure ends the load
      with what was registered so far. */
  function LoadFiles(algorithms: map<string, Algorithm>, files: seq<seq<string>>, directory: string, tools: KeyTools): (r: LoadRun)
    ensures Extends(r.algorithms, algorithms)
    decreases |files|
  {
    if files == [] then LoadRun(algorithms, None)
    else
      var run := AppLines(FileStart(algorithms), files[0], directory, tools);
      if run.failure.Some? then LoadRun(run.state.algorithms, run.failure)
      else LoadFiles(run.state.algorithms, files[1..], directory, tools)
  }

  /** A `KEY:` line that succeeds adds exactly one entry, for the current id,
      which was not registered before, built with the current algorithm. */
  lemma KeyLineRegistersOne(st: FileState, line: string, directory: string, tools: KeyTools)
    requires StartsWith(line, "KEY:")
    requires LineAction(st, line, directory, tools).Ok?
    ensures var next := LineAction(st, line, directory, tools).value;
            && st.id.Some? && st.id.value !in st.algorithms
            && tools.decodeKey(st.algoType, Trim(line[4..])).Ok?
            && next.algorithms == st.algorithms[st.id.value := Algorithm(st.algo, tools.decodeKey(st.algoType, Trim(line[4..])).value)]
            && |next.algorithms| == |st.algorithms| + 1
  {
    KeyLineNotOther(line);
    assert LineAction(st, line, directory, tools) == KeyLine(st, Trim(line[4..]), tools);
  }

  /** A `KEY:` line is not blank, not a comment and none of the other keys. */
  lemma KeyLineNotOther(line: string)
    requires StartsWith(line, "KEY:")
    ensures !Ignored(line)
    ensures !StartsWith(line, "ID:") && !StartsWith(line, "ALGO:") && !StartsWith(line, "ALGO_TYPE:")
  {
    assert line[0] == 'K';
    assert !IsWhitespace(line[0]);
  }

  /** The service's own issuer, registered before any file is read, keeps
      its own algorithm however the load ends: no file can redefine it. */
  lemma OwnIssuerKept(algorithms: map<string, Algorithm>, issuer: string, algorithm: Algorithm, files: seq<seq<string>>, directory: string, tools: KeyTools)
    ensures var loaded := LoadFiles(algorithms[issuer := algorithm], files, directory, tools).algorithms;
            issuer in loaded && loaded[issuer] == algorithm
  {
  }

  /** Blank and comment lines change nothing. */
  lemma CommentLineIgnored(st: FileState, fullLine: string, directory: string, tools: KeyTools)
    requires Ignored(Trim(fullLine))
    ensures AppLine(st, fullLine, directory, tools) == Ok(st)
  {
  }

  /** A trimmed line with none of the keys and not a comment is an error
      naming the line. */
  lemma UnknownLineFails(st: FileState, fullLine: string, directory: string, tools: KeyTools)
    requires !Ignored(Trim(fullLine))
    requires !StartsWith(Trim(fullLine), "ID:") && !StartsWith(Trim(fullLine), "ALGO:")
    requires !StartsWith(Trim(fullLine), "ALGO_TYPE:") && !StartsWith(Trim(fullLine), "KEY:")
    ensures AppLine(st, fullLine, directory, tools) == Err(UnknownLine(Trim(fullLine), directory))
  {
  }

  /** A `KEY:` line whose key decodes is refused when the current id is
      already registered, whether by the service itself, an earlier file or
      an earlier line; it is refused without an id. */
  lemma KeyLineRefused(st: FileState, fullLine: string, directory: string, tools: KeyTools)
    requires StartsWith(Trim(fullLine), "KEY:")
    requires tools.decodeKey(st.algoType, Trim(Trim(fullLine)[4..])).Ok?
    ensures st.id.None? ==> AppLine(st, fullLine, directory, tools) == Err(IdNotSet)
    ensures st.id.Some? && st.id.value in st.algorithms ==>
              AppLine(st, fullLine, directory, tools) == Err(MultipleDefined(st.id.value))
  {
    KeyLineNotOther(Trim(fullLine));
  }

  /** A line that starts with a key word (not a comment marker, not
      whitespace) is neither blank nor a comment. */
  lemma KeyWordNotIgnored(line: string, word: string)
    requires |word| >= 1 && StartsWith(line, word)
    requires !IsWhitespace(word[0]) && word[0] != '#' && word[0] != '/' && word[0] != '-'
    ensures !Ignored(line)
  {
    assert line[0] == word[0];
  }

  /** An `ID:` line sets the id to the trimmed remainder of the trimmed line. */
  lemma IdLineSetsId(st: FileState, fullLine: string, directory: string, tools: KeyTools)
    requires StartsWith(Trim(fullLine), "ID:")
    ensures AppLine(st, fullLine, directory, tools) == Ok(st.(id := Some(Trim(Trim(fullLine)[3..]))))
  {
    KeyWordNotIgnored(Trim(fullLine), "ID:");
  }

  /** An `ALGO:` line sets the algorithm name for the rest of the file. */
  lemma AlgoLineSetsAlgo(st: FileState, fullLine: string, directory: string, tools: KeyTools)
    requires StartsWith(Trim(fullLine), "ALGO:")
    ensures AppLine(st, fullLine, directory, tools) == Ok(st.(algo := Trim(Trim(fullLine)[5..])))
  {
    AlgoLineNotOther(Trim(fullLine));
  }

  /** An `ALGO_TYPE:` line sets the key type for the rest of the file. */
  lemma AlgoTypeLineSetsAlgoType(st: FileState, fullLine: string, directory: string, tools: KeyTools)
    requires StartsWith(Trim(fullLine), "ALGO_TYPE:")
    ensures AppLine(st, fullLine, directory, tools) == Ok(st.(algoType := Trim(Trim(fullLine)[10..])))
  {
    AlgoTypeLineNotOther(Trim(fullLine));
  }

  /** An `ALGO:` line is not blank, not a comment and not an `ID:` line. */
  lemma AlgoLineNotOther(line: string)
    requires StartsWith(line, "ALGO:")
    ensures !Ignored(line) && !StartsWith(line, "ID:")
  {
    KeyWordNotIgnored(line, "ALGO:");
    assert line[0] == 'A';
  }

  /** An `ALGO_TYPE:` line is not blank, not a comment, not `ID:` and not `ALGO:`. */
  lemma AlgoTypeLineNotOther(line: string)
    requires StartsWith(line, "ALGO_TYPE:")
    ensures !Ignored(line) && !StartsWith(line, "ID:") && !StartsWith(line, "ALGO:")
  {
    KeyWordNotIgnored(line, "ALGO_TYPE:");
    assert line[0] == 'A' && line[4] == '_';
  }

  /** A `KEY:` line is decided by `KeyLine` on the trimmed remainder. */
  lemma KeyLineApplies(st: FileState, fullLine: string, directory: string, tools: KeyTools)
    requires StartsWith(Trim(fullLine), "KEY:")
    ensures AppLine(st, fullLine, directory, tools) == KeyLine(st, Trim(Trim(fullLine)[4..]), tools)
  {
    KeyLineNotOther(Trim(fullLine));
  }

  /** A file that only names an id and gives a key registers that id with
      the defaults: the key is decoded as `EC` and the algorithm is `ECDSA256`,
      whatever earlier files set. */
  lemma {:induction false} DefaultsApplyPerFile(algorithms: map<string, Algorithm>, idText: string, keyText: string, directory: string, tools: KeyTools)
    requires Trim(idText) !in algorithms
    requires tools.decodeKey("EC", Trim(keyText)).Ok? && "ECDSA256" in tools.supported
    ensures LoadFiles(algorithms, [["ID:" + idText, "KEY:" + keyText]], directory, tools)
         == LoadRun(algorithms[Trim(idText) := Algorithm("ECDSA256", tools.decodeKey("EC", Trim(keyText)).value)], None)
  {
    var reg := algorithms[Trim(idText) := Algorithm("ECDSA256", tools.decodeKey("EC", Trim(keyText)).value)];
    var run := IdKeyFile(algorithms, idText, keyText, directory, tools);
    var files := [["ID:" + idText, "KEY:" + keyText]];
    assert files[1..] == [];
    assert LoadFiles(algorithms, files, directory, tools) == LoadFiles(run.state.algorithms, [], directory, tools);
  }

  /** The file of `DefaultsApplyPerFile`, line by line. */
  lemma IdKeyFile(algorithms: map<string, Algorithm>, idText: string, keyText: string, directory: string, tools: KeyTools)
    returns (run: FileRun)
    requires Trim(idText) !in algorithms
    requires tools.decodeKey("EC", Trim(keyText)).Ok? && "ECDSA256" in tools.supported
    ensures run == AppLines(FileStart(algorithms), ["ID:" + idText, "KEY:" + keyText], directory, tools)
    ensures run.failure.None?
    ensures run.state.algorithms == algorithms[Trim(idText) := Algorithm("ECDSA256", tools.decodeKey("EC", Trim(keyText)).value)]
  {
    var idLine := "ID:" + idText;
    var keyLine := "KEY:" + keyText;
    TrimAfterWord("ID:", idText);
    IdLineSetsId(FileStart(algorithms), idLine, directory, tools);
    var afterId := FileStart(algorithms).(id := Some(Trim(idText)));
    TrimAfterWord("KEY:", keyText);
    KeyLineApplies(afterId, keyLine, directory, tools);
    var reg := algorithms[Trim(idText) := Algorithm("ECDSA256", tools.decodeKey("EC", Trim(keyText)).value)];
    var done := afterId.(algorithms := reg);
    assert AppLine(afterId, keyLine, directory, tools) == Ok(done);
    var lines := [idLine, keyLine];
    assert lines[1..] == [keyLine];
    assert [keyLine][1..] == [];
    assert AppLines(afterId, [keyLine], directory, tools) == AppLines(done, [], directory, tools);
    run := AppLines(FileStart(algorithms), lines, directory, tools);
    assert run == AppLines(afterId, [keyLine], directory, tools);
  }

  /** The registry. At startup it is empty. */
  class KnownApplications {
    var algorithms: map<string, Algorithm>
    const algorithm: Algorithm
    const issuer: string

    constructor (algorithm: Algorithm, issuer: string)
      ensures algorithms == map[] && this.algorithm == algorithm && this.issuer == issuer
    {
      algorithms := map[];
      this.algorithm := algorithm;
      this.issuer := issuer;
    }

    /** Registers the own issuer, then reads `files` (the lines of each file
        of the applications directory, `None` when it cannot be listed). */
    method Run(files: Option<seq<seq<string>>>, directory: string, tools: KeyTools) returns (failure: Option<LoadFailure>)
      modifies this
      ensures var run := LoadFiles(old(algorithms)[issuer := algorithm], if files.Some? then files.value else [], directory, tools);
              algorithms == run.algorithms && failure == run.failure
      ensures issuer in algorithms && algorithms[issuer] == algorithm
    {
      algorithms := algorithms[issuer := algorithm];
      ghost var start := algorithms;
      if files.None? {
        return None;
      }
      var all := files.value;
      failure := None;
      for f := 0 to |all|
        invariant LoadFiles(algorithms, all[f..], directory, tools) == LoadFiles(start, all, directory, tools)
        invariant failure.None?
      {
        assert all[f..][0] == all[f] && all[f..][1..] == all[f + 1..];
        failure := ReadFile(all[f], directory, tools);
        if failure.Some? {
          return;
        }
      }
      assert all[|all|..] == [];
    }

    /** One file, from its defaults: `id`, `algoType` and `algo` are local
        to the file, the registry is shared. */
    method ReadFile(lines: seq<string>, directory: string, tools: KeyTools) returns (failure: Option<LoadFailure>)
      modifies this
      ensures var run := AppLines(FileStart(old(algorithms)), lines, directory, tools);
              algorithms == run.state.algorithms && failure == run.failure
    {
      var id: Option<string> := None;
      var algoType := "EC";
      var algo := "ECDSA256";
      for j := 0 to |lines|
        invariant AppLines(FileState(algorithms, id, algoType, algo), lines[j..], directory, tools)
               == AppLines(FileStart(old(algorithms)), lines, directory, tools)
      {
        assert lines[j..][0] == lines[j] && lines[j..][1..] == lines[j + 1..];
        id, algoType, algo, failure := ReadLine(lines[j], id, algoType, algo, directory, tools);
        if failure.Some? {
          return;
        }
      }
      assert lines[|lines|..] == [];
      return None;
    }

    /** The body of the line loop: updates the file's variables or the
        registry as the line says. */
    method ReadLine(fullLine: string, id: Option<string>, algoType: string, algo: string, directory: string, tools: KeyTools)
      returns (id': Option<string>, algoType': string, algo': string, failure: Option<LoadFailure>)
      modifies this
      ensures var r := AppLine(FileState(old(algorithms), id, algoType, algo), fullLine, directory, tools);
              && (r.Err? ==> failure == Some(r.error) && algorithms == old(algorithms))
              && (r.Ok? ==> failure.None? && FileState(algorithms, id', algoType', algo') == r.value)
    {
      id', algoType', algo', failure := id, algoType, algo, None;
      var line := Trim(fullLine);
      if AllWhitespace(line) || StartsWith(line, "#") || StartsWith(line, "//") || StartsWith(line, "--") {
      } else if StartsWith(line, "ID:") {
        id' := Some(Trim(line[3..]));
      } else if StartsWith(line, "ALGO:") {
        algo' := Trim(line[5..]);
      } else if StartsWith(line, "ALGO_TYPE:") {
        algoType' := Trim(line[10..]);
      } else if StartsWith(line, "KEY:") {
        var key := tools.decodeKey(algoType, Trim(line[4..]));
        if key.Err? {
          return id, algoType, algo, Some(KeyDecodingFailed(key.error));
        }
        if id.None? {
          return id, algoType, algo, Some(IdNotSet);
        }
        if id.value in algorithms {
          return id, algoType, algo, Some(MultipleDefined(id.value));
        }
        var created := CreateAlgorithm(tools, algo, key.value);
        if created.Err? {
          return id, algoType, algo, Some(created.error);
        }
        algorithms := algorithms[id.value := created.value];
      } else {
        failure := Some(UnknownLine(line, directory));
      }
    }
  }
}
