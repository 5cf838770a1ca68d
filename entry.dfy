/**
 * `main` of fuzzer.cpp: with no argument after the program name it prints the
 * error and usage text; otherwise it resolves every argument but the last, takes
 * the last one as the link, and picks the error text over the usage text over
 * the (unimplemented) fuzzing run. Every path returns status 0.
 */
module EntryPoint {
  import opened Wrappers
  import opened Logging
  import opened Resolver
  import opened Params

  /** What `main` goes on to do. */
  datatype Outcome = ErrorAndUsage | Usage | Fuzz

  /** The end of a run: outcome, exit status, the resolved parameters (none when nothing was parsed) and the link. */
  datatype RunResult = RunResult(outcome: Outcome, status: int, parsed: Option<Config>, link: Option<string>)

  /** `parseLink`: the link is the last argument as it stands. */
  function ParseLink(lastArg: string): string {
    lastArg
  }

  /**
   * The decision `main` takes. `error` is tested before `help`, so a run with
   * both prints the error text.
   */
  function Dispatch(args: seq<string>, fs: FileSystem): (r: RunResult)
    requires |args| >= 1 && TokensOk(args)
    ensures r.status == 0
    ensures r.parsed.None? <==> |args| == 1
    ensures r.link.None? <==> |args| == 1
    ensures |args| > 1 ==> r.link == Some(args[|args| - 1]) && r.parsed == Some(Resolve(args, fs))
    ensures r.outcome == ErrorAndUsage <==> |args| == 1 || r.parsed.value.error
    ensures r.outcome == Usage <==> |args| > 1 && !r.parsed.value.error && r.parsed.value.help
    ensures r.outcome == Fuzz ==> !r.parsed.value.error && !r.parsed.value.help
  {
    if |args| == 1 then RunResult(ErrorAndUsage, 0, None, None)
    else
      var c := Resolve(args, fs);
      var link := Some(ParseLink(args[|args| - 1]));
      if c.error then RunResult(ErrorAndUsage, 0, Some(c), link)
      else if c.help then RunResult(Usage, 0, Some(c), link)
      else RunResult(Fuzz, 0, Some(c), link)
  }

  /** `main(argc, argv)` on a fresh `Parameters` object. */
  method Run(args: seq<string>, fs: FileSystem) returns (r: RunResult)
    requires |args| >= 1 && TokensOk(args)
    ensures r == Dispatch(args, fs)
  {
    if |args| == 1 {
      return RunResult(ErrorAndUsage, 0, None, None);
    }
    var pm := new Parameters();
    LoopParameters(args, fs, pm);
    pm.link := Some(ParseLink(args[|args| - 1]));
    if pm.error {
      return RunResult(ErrorAndUsage, 0, Some(pm.State()), pm.link);
    } else if pm.help {
      return RunResult(Usage, 0, Some(pm.State()), pm.link);
    }
    return RunResult(Fuzz, 0, Some(pm.State()), pm.link);
  }

  // ---------------------------------------------------------------------------
  // Whole command lines

  /** `fuzzer -d wordlist.txt -v http://example.com` with the wordlist readable. */
  lemma DirectoriesAndVerbose(fs: FileSystem)
    requires "wordlist.txt" in fs.readable
    ensures var r := Dispatch(["fuzzer", "-d", "wordlist.txt", "-v", "http://example.com"], fs);
      r.outcome == Fuzz && r.link == Some("http://example.com") &&
      r.parsed == Some(Initial.(dirs := true, level := Debug, wordlistDirs := Some("wordlist.txt")))
  {
    var args := ["fuzzer", "-d", "wordlist.txt", "-v", "http://example.com"];
    var c1 := Initial.(dirs := true, wordlistDirs := Some("wordlist.txt"));
    assert Search(args, fs, Initial, 1, None) == Resolved(c1, 1);
    assert Search(args, fs, c1, 3, None) == Resolved(c1.(level := Debug), 0);
    assert LoopFrom(args, fs, c1.(level := Debug), 4).config == c1.(level := Debug);
  }

  /** The parameters `fuzzer -sdo subs.txt dirs.txt out.log http://t` is expected to produce. */
  const StackedConfig := Initial.(dirs := true, subs := true, wordlistSubs := Some("subs.txt"),
                                  wordlistDirs := Some("dirs.txt"), logFile := Some("out.log"))

  /** The cluster `-sdo`: its letters claim the three tokens after it, in the order of the letters. */
  lemma StackedLetters(fs: FileSystem)
    requires "subs.txt" in fs.readable && "dirs.txt" in fs.readable && "out.log" in fs.writable
    ensures Search(["fuzzer", "-sdo", "subs.txt", "dirs.txt", "out.log", "http://t"], fs, Initial, 1, None)
            == Resolved(StackedConfig, 1)
  {
    var args := ["fuzzer", "-sdo", "subs.txt", "dirs.txt", "out.log", "http://t"];
    var c1 := Initial.(subs := true, wordlistSubs := Some("subs.txt"));
    var c2 := c1.(dirs := true, wordlistDirs := Some("dirs.txt"));
    assert Single(args, fs, Initial, 1, Subs) == Resolved(c1, 1);
    assert Single(args, fs, c1, 2, Dirs) == Resolved(c2, 1);
    assert Single(args, fs, c2, 3, Output) == Resolved(StackedConfig, 1);
    assert ClusterLoop(args, fs, StackedConfig, 4, "-sdo", 4, 1) == Step(StackedConfig, 4, 1);
    assert ClusterLoop(args, fs, c2, 3, "-sdo", 3, 1) == Step(StackedConfig, 4, 1);
    assert ClusterLoop(args, fs, c1, 2, "-sdo", 2, 1) == Step(StackedConfig, 4, 1);
    assert ClusterLoop(args, fs, Initial, 1, "-sdo", 1, 0) == Step(StackedConfig, 4, 1);
  }

  /**
   * `fuzzer -sdo subs.txt dirs.txt out.log http://t`: the stacked letters bind
   * the three files; the loop then resolves "dirs.txt" and "out.log" as clusters
   * whose second characters are no cluster letters, so they change nothing.
   */
  lemma StackedResolve(fs: FileSystem)
    requires "subs.txt" in fs.readable && "dirs.txt" in fs.readable && "out.log" in fs.writable
    ensures Resolve(["fuzzer", "-sdo", "subs.txt", "dirs.txt", "out.log", "http://t"], fs) == StackedConfig
  {
    var args := ["fuzzer", "-sdo", "subs.txt", "dirs.txt", "out.log", "http://t"];
    StackedLetters(fs);
    assert Search(args, fs, StackedConfig, 3, None) == Resolved(StackedConfig, 0);
    assert Search(args, fs, StackedConfig, 4, None) == Resolved(StackedConfig, 0);
    assert LoopFrom(args, fs, StackedConfig, 5).config == StackedConfig;
    assert LoopFrom(args, fs, StackedConfig, 4).config == StackedConfig;
    assert LoopFrom(args, fs, StackedConfig, 3).config == StackedConfig;
  }

  /** The same command line ends in the fuzzing run with the link "http://t". */
  lemma StackedCluster(fs: FileSystem)
    requires "subs.txt" in fs.readable && "dirs.txt" in fs.readable && "out.log" in fs.writable
    ensures var r := Dispatch(["fuzzer", "-sdo", "subs.txt", "dirs.txt", "out.log", "http://t"], fs);
      r.outcome == Fuzz && r.link == Some("http://t") && r.parsed == Some(StackedConfig)
  {
    StackedResolve(fs);
  }

  /** `fuzzer -v -v L` resolves like `fuzzer -v L`. */
  lemma RepeatedVerbose(fs: FileSystem, link: string)
    ensures Resolve(["fuzzer", "-v", "-v", link], fs) == Resolve(["fuzzer", "-v", link], fs)
            == Initial.(level := Debug)
  {
    var twice := ["fuzzer", "-v", "-v", link];
    assert LoopFrom(twice, fs, Initial.(level := Debug), 2).config == Initial.(level := Debug);
    var once := ["fuzzer", "-v", link];
    assert LoopFrom(once, fs, Initial, 1).config == Initial.(level := Debug);
  }

  /** `fuzzer -o http://t`: the output option finds only the link after it, so the run ends in the error text. */
  lemma OutputMissingFile(fs: FileSystem)
    ensures var r := Dispatch(["fuzzer", "-o", "http://t"], fs);
      r.outcome == ErrorAndUsage && r.parsed == Some(Initial.(error := true))
  {
    var args := ["fuzzer", "-o", "http://t"];
    assert LoopFrom(args, fs, Initial.(error := true), 2).config == Initial.(error := true);
  }
}
