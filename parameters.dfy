/**
 * The `Parameters` object of fuzzer.cpp and the two functions that fill it in
 * place through a pointer, `searchParameters` and `loopParameters`. Each method
 * is proved to leave the object in the state the matching function of module
 * Resolver computes.
 */
module Params {
  import opened Wrappers
  import opened Logging
  import opened Resolver
  import opened ResolverFacts

  class Parameters {
    var dirs: bool
    var subs: bool
    var help: bool
    var error: bool
    var link: Option<string>
    var level: LogLevel
    var wordlistSubs: Option<string>
    var wordlistDirs: Option<string>
    var logFile: Option<string>

    /** Every flag false, level INFO, no link, no stream open. */
    constructor ()
      ensures State() == Initial && link == None
    {
      dirs := false;
      subs := false;
      help := false;
      error := false;
      level := Info;
      link := None;
      wordlistSubs := None;
      wordlistDirs := None;
      logFile := None;
    }

    /** The fields the resolver sets, as a value. */
    function State(): Config
      reads this
    {
      Config(dirs, subs, help, error, level, wordlistSubs, wordlistDirs, logFile)
    }
  }

  /**
   * `searchParameters(argc, argv, pm, i, option)`: resolves `option`, or
   * `argv[i]` when there is none, and returns how many following tokens it used.
   * A token that spells no option is expanded letter by letter, each letter
   * resolved through a recursive call on its synthesized "-x" token.
   */
  method SearchParameters(args: seq<string>, fs: FileSystem, pm: Parameters, i: int, option: Option<string>)
    returns (shift: int)
    requires OptionOk(args, i, option)
    modifies pm
    ensures var r := Search(args, fs, old(pm.State()), i, option);
      pm.State() == r.config && shift == r.shift
    ensures pm.link == old(pm.link)
    decreases if option.None? then 2 else 0
  {
    var opt := if option.None? then args[i] else option.value;
    // the strcmp chain: which option `opt` spells exactly, short or long
    var flag := Classify(opt);
    SearchExact(args, fs, pm.State(), i, option);
    if flag == Some(Dirs) {
      pm.dirs := true;
      if i + 1 < |args| - 1 && !DashPrefixed(args[i + 1]) {
        pm.wordlistDirs := Open(pm.wordlistDirs, args[i + 1], fs.readable);
        if pm.wordlistDirs.None? {
          pm.error := true;
        }
        return 1;
      } else {
        pm.wordlistDirs := Open(pm.wordlistDirs, DefaultDirs, fs.readable);
        if pm.wordlistDirs.None? {
          pm.error := true;
        }
      }
      return 0;
    } else if flag == Some(Subs) {
      pm.subs := true;
      if i + 1 < |args| - 1 && !DashPrefixed(args[i + 1]) {
        pm.wordlistSubs := Open(pm.wordlistSubs, args[i + 1], fs.readable);
        if pm.wordlistSubs.None? {
          pm.error := true;
        }
        return 1;
      } else {
        pm.wordlistDirs := Open(pm.wordlistDirs, DefaultSubs, fs.readable);
        if pm.wordlistSubs.None? {
          pm.error := true;
        }
      }
      return 0;
    } else if flag == Some(Help) {
      pm.help := true;
      return 0;
    } else if flag == Some(Verbose) {
      pm.level := Debug;
      return 0;
    } else if flag == Some(Output) {
      if i + 1 >= |args| - 1 {
        pm.error := true;
        return 0;
      }
      pm.logFile := Open(pm.logFile, args[i + 1], fs.writable);
      if pm.logFile.None? {
        pm.error := true;
      }
      return 1;
    } else {
      shift := ExpandCluster(args, fs, pm, i, opt);
    }
  }

  /**
   * The last branch of `searchParameters`: a token that spells no option is
   * read as a compacted cluster. From its second character on, while the
   * character is a cluster letter, the synthesized "-x" token is resolved by a
   * recursive call at the index the earlier letters advanced to; the shift of
   * the last call is returned.
   */
  method ExpandCluster(args: seq<string>, fs: FileSystem, pm: Parameters, i: int, option: string)
    returns (shift: int)
    requires 0 <= i && |option| > 0
    modifies pm
    ensures var r := ClusterLoop(args, fs, old(pm.State()), i, option, 1, 0);
      pm.State() == r.config && shift == r.shift
    ensures pm.link == old(pm.link)
    decreases 1
  {
    var index := 1;
    var j := i;
    shift := 0;
    while index < |option| && IsFlagLetter(option[index])
      invariant 1 <= index <= |option|
      invariant forall k :: 1 <= k < index ==> IsFlagLetter(option[k])
      invariant ApplyLetters(args, fs, old(pm.State()), i, option[1..index], 0) == Step(pm.State(), j, shift)
      invariant pm.link == old(pm.link)
      decreases |option| - index
    {
      ApplyLastLetter(args, fs, old(pm.State()), i, option[1..index], option[index], 0);
      assert option[1..index + 1] == option[1..index] + [option[index]];
      SynthesizedIsExact(option[index]);
      SearchExact(args, fs, pm.State(), j, Some(Synthesized(option[index])));
      shift := SearchParameters(args, fs, pm, j, Some(Synthesized(option[index])));
      j := j + shift;
      index := index + 1;
    }
    LetterRunIsMaximal(option, 1, index);
    ClusterVisitsLetterRun(args, fs, old(pm.State()), i, option, 1, 0);
  }

  /**
   * `loopParameters(argc, argv, pm)`: resolves the arguments from index 1 up to,
   * not including, the last one, skipping what each call says it used.
   */
  method LoopParameters(args: seq<string>, fs: FileSystem, pm: Parameters)
    requires TokensOk(args)
    modifies pm
    ensures pm.State() == LoopFrom(args, fs, old(pm.State()), 1).config
    ensures pm.link == old(pm.link)
  {
    ghost var target := LoopFrom(args, fs, pm.State(), 1).config;
    var i := 1;
    while i < |args| - 1
      invariant 1 <= i
      invariant target == LoopFrom(args, fs, pm.State(), i).config
      invariant pm.link == old(pm.link)
      decreases |args| - i
    {
      i := LoopTurn(args, fs, pm, i);
    }
    LoopFromDone(args, fs, pm.State(), i);
  }

  /** One turn of the loop of `loopParameters`: resolve `argv[i]` and step past the tokens it used. */
  method LoopTurn(args: seq<string>, fs: FileSystem, pm: Parameters, i: int) returns (next: int)
    requires 1 <= i < |args| - 1 && TokensOk(args)
    modifies pm
    ensures pm.State() == Search(args, fs, old(pm.State()), i, None).config
    ensures next == i + Search(args, fs, old(pm.State()), i, None).shift + 1
    ensures LoopFrom(args, fs, old(pm.State()), i).config == LoopFrom(args, fs, pm.State(), next).config
    ensures pm.link == old(pm.link)
  {
    ghost var before := pm.State();
    var shift := SearchParameters(args, fs, pm, i, None);
    LoopFromConfigStep(args, fs, before, i, pm.State(), shift);
    next := i + shift;
    next := next + 1;
  }
}
